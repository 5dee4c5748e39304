/**
 * The process-builder data model (types/process.ts): tags, phases, process
 * flows, KPI records, the reducer's actions and state, and the standard
 * templates.
 */
module ProcessTypes {
  import opened JsValues

  /** The seven Meta-Hodos tag kinds. */
  datatype TagType = TRG | AGT | LLM | PRM | MEM | TOL | OUT

  datatype Tag = Tag(tagType: TagType, value: string)

  datatype Phase = Phase(id: string, name: string, description: string, tags: seq<Tag>, order: int)

  datatype Pattern = Standard | Custom

  /** `createdAt` and `updatedAt` are ISO time stamps. */
  datatype ProcessFlow = ProcessFlow(
    id: string,
    name: string,
    pattern: Pattern,
    templateId: Option<string>,
    phases: seq<Phase>,
    createdAt: string,
    updatedAt: string)

  datatype ProcessKPI = ProcessKPI(
    phaseId: string,
    timeManualMinutes: real,
    timeAutoMinutes: real,
    errorRateManual: real,
    errorRateAuto: real,
    costManualEur: real,
    costAutoEur: real,
    volumePerDay: real)

  datatype PhaseKPIResult = PhaseKPIResult(
    phaseId: string,
    phaseName: string,
    timeSavedMinutes: real,
    timeSavedPercent: real,
    errorReduction: real,
    costSavedEur: real,
    efficiencyScore: real)

  datatype KPIResults = KPIResults(
    totalTimeSavedMinutes: real,
    totalTimeSavedPercent: real,
    totalErrorReduction: real,
    totalCostSavedEur: real,
    totalCostSavedPercent: real,
    roiPercent: real,
    paybackDays: real,
    phaseResults: seq<PhaseKPIResult>)

  /** `Partial<Phase>`: a field that is `None` is not in the update. */
  datatype PhaseUpdate = PhaseUpdate(
    id: Option<string>,
    name: Option<string>,
    description: Option<string>,
    tags: Option<seq<Tag>>,
    order: Option<int>)

  /** The twelve actions of the process reducer, with their payloads. */
  datatype ProcessAction =
    | AddPhase(phase: Phase)
    | UpdatePhase(id: string, updates: PhaseUpdate)
    | DeletePhase(phaseId: string)
    | ReorderPhases(phases: seq<Phase>)
    | AssignTag(phaseId: string, tag: Tag)
    | RemoveTag(phaseId: string, tagIndex: int)
    | SetProcessName(name: string)
    | LoadTemplate(flow: ProcessFlow)
    | SetPattern(pattern: Pattern)
    | Reset
    | SetKPI(phaseId: string, kpi: ProcessKPI)
    | ResetKPIs

  datatype ProcessState = ProcessState(
    phases: seq<Phase>,
    processName: string,
    pattern: Pattern,
    templateId: Option<string>,
    kpis: map<string, ProcessKPI>)

  /** `tags.some(t => t.type === type)`. */
  predicate HasTagType(tags: seq<Tag>, t: TagType) {
    exists tag :: tag in tags && tag.tagType == t
  }

  /** No two tags of one phase have the same type. */
  predicate TagTypesDistinct(tags: seq<Tag>) {
    forall i, j :: 0 <= i < j < |tags| ==> tags[i].tagType != tags[j].tagType
  }

  /** Phase k (from 0) has order k + 1 and id "k + 1". */
  predicate NumberedFromOne(phases: seq<Phase>) {
    forall k :: 0 <= k < |phases| ==> phases[k].order == k + 1 && phases[k].id == NatToString(k + 1)
  }

  // ---------------------------------------------------------------------
  // STANDARD_TEMPLATES (types/process.ts:100-333)
  // ---------------------------------------------------------------------

  const WarehousePhases := [
    Phase("1", "Ricezione Email da Cliente", "Email arriva a orders@warehouse.it con richiesta ordine",
      [Tag(TRG, "EMAIL")], 1),
    Phase("2", "Estrazione Dati Ordine", "AI estrae SKU, quantità, indirizzo di consegna dalla email",
      [Tag(AGT, "DATA_EXTRACTION"), Tag(LLM, "CLAUDE")], 2),
    Phase("3", "Query Disponibilità SAP", "Verifica stock in tempo reale via API SAP",
      [Tag(TOL, "SAP_API")], 3),
    Phase("4", "Creazione Bolla Automatica", "Genera PDF bolla di carico e invia al magazzino",
      [Tag(OUT, "PDF")], 4)]

  const SalesPhases := [
    Phase("1", "Trigger Opportunity Chiusa", "Attiva quando opp. CRM cambia a \"Closed Won\"",
      [Tag(TRG, "CRM_EVENT")], 1),
    Phase("2", "Pianificazione Follow-up", "AI suggerisce timing e contenuto basato su storia cliente",
      [Tag(AGT, "SCHEDULER"), Tag(LLM, "CLAUDE")], 2),
    Phase("3", "Invio Email Personalizzata", "Email con dati cliente via Gmail con merge fields",
      [Tag(OUT, "EMAIL")], 3)]

  const MarketingPhases := [
    Phase("1", "Schedule Esecuzione Settimanale", "Trigger ogni lunedì mattina alle 6:00 AM",
      [Tag(TRG, "SCHEDULE")], 1),
    Phase("2", "Raccolta Dati Social", "Fetch Twitter, LinkedIn, Instagram mentions",
      [Tag(TOL, "SOCIAL_API")], 2),
    Phase("3", "Sentiment Analysis", "AI analizza sentiment e categorizza mentions",
      [Tag(AGT, "SENTIMENT_ANALYZER"), Tag(LLM, "CLAUDE")], 3),
    Phase("4", "Report su Google Sheets", "Salva risultati in Google Sheets con grafici",
      [Tag(OUT, "GOOGLE_SHEETS")], 4)]

  const ServicePhases := [
    Phase("1", "Webhook da Slack", "Riceve messaggi da canale #support via webhook",
      [Tag(TRG, "WEBHOOK")], 1),
    Phase("2", "AI Customer Service Agent", "Agente AI legge query, consulta KB, prepara risposta",
      [Tag(AGT, "SUPPORT_AGENT"), Tag(LLM, "CLAUDE"), Tag(MEM, "KNOWLEDGE_BASE")], 2),
    Phase("3", "Risposta su Slack", "Invia risposta al canale Slack originale",
      [Tag(OUT, "SLACK")], 3)]

  const ProductionPhases := [
    Phase("1", "Estrazione Distinta Base da ERP", "Carica componenti e quantità dal sistema ERP",
      [Tag(TRG, "ERP_EXPORT")], 1),
    Phase("2", "Ottimizzazione IA", "AI analizza distinta per supplier migration, consolidamento",
      [Tag(AGT, "OPTIMIZER"), Tag(LLM, "CLAUDE")], 2),
    Phase("3", "Generazione Documento", "Crea PDF con suggerimenti di ottimizzazione",
      [Tag(OUT, "PDF")], 3)]

  const StrategyPhases := [
    Phase("1", "Trigger Settimanale", "Esegue ogni giovedì per preparare briefing settimanale",
      [Tag(TRG, "SCHEDULE")], 1),
    Phase("2", "Raccolta Dati di Mercato", "Fetch news, competitor data, trend da API esterne",
      [Tag(TOL, "MARKET_DATA_API")], 2),
    Phase("3", "Generazione SWOT", "AI crea matrice SWOT dinamica basata su dati",
      [Tag(AGT, "SWOT_GENERATOR"), Tag(LLM, "CLAUDE"), Tag(MEM, "HISTORICAL_DATA")], 3),
    Phase("4", "Email Report Dirigenti", "Invia report SWOT ai C-suite via Gmail",
      [Tag(OUT, "EMAIL")], 4)]

  /** A standard template; both time stamps are `stamp`, the moment the table was built. */
  function Template(id: string, name: string, phases: seq<Phase>, stamp: string): ProcessFlow {
    ProcessFlow(id, name, Standard, Some(id), phases, stamp, stamp)
  }

  /** `STANDARD_TEMPLATES`, keyed as in the source. */
  function StandardTemplates(stamp: string): (t: map<string, ProcessFlow>)
    ensures t.Keys == {"WHSE", "SALES", "MKTG", "SERV", "PROD", "STRAT"}
  {
    map[
      "WHSE" := Template("whse", "Warehouse Automation", WarehousePhases, stamp),
      "SALES" := Template("sales", "Sales Follow-up", SalesPhases, stamp),
      "MKTG" := Template("mktg", "Marketing Analytics", MarketingPhases, stamp),
      "SERV" := Template("serv", "Service Chatbot", ServicePhases, stamp),
      "PROD" := Template("prod", "Production Optimization", ProductionPhases, stamp),
      "STRAT" := Template("strat", "Strategic SWOT", StrategyPhases, stamp)]
  }

  /** The phase lists of the six templates. */
  const TemplatePhaseLists := [WarehousePhases, SalesPhases, MarketingPhases, ServicePhases, ProductionPhases, StrategyPhases]

  lemma TemplatePhasesListed(stamp: string, key: string)
    requires key in StandardTemplates(stamp)
    ensures StandardTemplates(stamp)[key].phases in TemplatePhaseLists
    ensures StandardTemplates(stamp)[key].pattern == Standard
    ensures StandardTemplates(stamp)[key].templateId == Some(StandardTemplates(stamp)[key].id)
  {
  }

  /** The template phase lists have the shape every standard template promises. */
  predicate WellFormedTemplate(phases: seq<Phase>) {
    3 <= |phases| <= 4 &&
    NumberedFromOne(phases) &&
    HasTagType(phases[0].tags, TRG) &&
    forall k :: 0 <= k < |phases| ==> TagTypesDistinct(phases[k].tags)
  }

  /** Three or four phases whose orders and ids are 1, 2, 3 (and 4) are numbered from one. */
  lemma NumberedSmall(phases: seq<Phase>)
    requires 3 <= |phases| <= 4
    requires forall k :: 0 <= k < |phases| ==> phases[k].order == k + 1
    requires phases[0].id == "1" && phases[1].id == "2" && phases[2].id == "3"
    requires |phases| == 4 ==> phases[3].id == "4"
    ensures NumberedFromOne(phases)
  {
    forall k | 0 <= k < |phases|
      ensures phases[k].id == NatToString(k + 1)
    {
      if k == 0 {
        assert NatToString(1) == "1";
      } else if k == 1 {
        assert NatToString(2) == "2";
      } else if k == 2 {
        assert NatToString(3) == "3";
      } else {
        assert NatToString(4) == "4";
      }
    }
  }

  /** Up to three tags whose types differ pairwise have distinct types. */
  lemma DistinctSmall(tags: seq<Tag>)
    requires |tags| <= 3
    requires |tags| >= 2 ==> tags[0].tagType != tags[1].tagType
    requires |tags| == 3 ==> tags[0].tagType != tags[2].tagType && tags[1].tagType != tags[2].tagType
    ensures TagTypesDistinct(tags)
  {
  }

  /** A list of three or four phases built from the checks above is a well-formed template. */
  lemma WellFormedSmall(phases: seq<Phase>)
    requires 3 <= |phases| <= 4 && NumberedFromOne(phases) && phases[0].tags != [] && phases[0].tags[0].tagType == TRG
    requires forall k :: 0 <= k < |phases| ==> TagTypesDistinct(phases[k].tags)
    ensures WellFormedTemplate(phases)
  {
    assert phases[0].tags[0] in phases[0].tags;
  }

  lemma WarehouseWellFormed()
    ensures WellFormedTemplate(WarehousePhases)
  {
    var ps := WarehousePhases;
    NumberedSmall(ps);
    forall k | 0 <= k < |ps|
      ensures TagTypesDistinct(ps[k].tags)
    {
      DistinctSmall(ps[k].tags);
    }
    WellFormedSmall(ps);
  }

  lemma SalesWellFormed()
    ensures WellFormedTemplate(SalesPhases)
  {
    var ps := SalesPhases;
    NumberedSmall(ps);
    forall k | 0 <= k < |ps|
      ensures TagTypesDistinct(ps[k].tags)
    {
      DistinctSmall(ps[k].tags);
    }
    WellFormedSmall(ps);
  }

  lemma MarketingWellFormed()
    ensures WellFormedTemplate(MarketingPhases)
  {
    var ps := MarketingPhases;
    NumberedSmall(ps);
    forall k | 0 <= k < |ps|
      ensures TagTypesDistinct(ps[k].tags)
    {
      DistinctSmall(ps[k].tags);
    }
    WellFormedSmall(ps);
  }

  lemma ServiceWellFormed()
    ensures WellFormedTemplate(ServicePhases)
  {
    var ps := ServicePhases;
    NumberedSmall(ps);
    forall k | 0 <= k < |ps|
      ensures TagTypesDistinct(ps[k].tags)
    {
      DistinctSmall(ps[k].tags);
    }
    WellFormedSmall(ps);
  }

  lemma ProductionWellFormed()
    ensures WellFormedTemplate(ProductionPhases)
  {
    var ps := ProductionPhases;
    NumberedSmall(ps);
    forall k | 0 <= k < |ps|
      ensures TagTypesDistinct(ps[k].tags)
    {
      DistinctSmall(ps[k].tags);
    }
    WellFormedSmall(ps);
  }

  lemma StrategyWellFormed()
    ensures WellFormedTemplate(StrategyPhases)
  {
    var ps := StrategyPhases;
    NumberedSmall(ps);
    forall k | 0 <= k < |ps|
      ensures TagTypesDistinct(ps[k].tags)
    {
      DistinctSmall(ps[k].tags);
    }
    WellFormedSmall(ps);
  }

  lemma TemplateWellFormed(phases: seq<Phase>)
    requires phases in TemplatePhaseLists
    ensures WellFormedTemplate(phases)
  {
    WarehouseWellFormed();
    SalesWellFormed();
    MarketingWellFormed();
    ServiceWellFormed();
    ProductionWellFormed();
    StrategyWellFormed();
  }

  /**
   * Every standard template: 3 or 4 phases numbered 1.. with ids "1".., a
   * trigger on the first phase, and no tag type twice in a phase.
   */
  lemma StandardTemplatesWellFormed(stamp: string, key: string)
    requires key in StandardTemplates(stamp)
    ensures WellFormedTemplate(StandardTemplates(stamp)[key].phases)
  {
    TemplatePhasesListed(stamp, key);
    TemplateWellFormed(StandardTemplates(stamp)[key].phases);
  }
}
