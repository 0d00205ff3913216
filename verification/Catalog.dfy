/** tutor/models/catalog.py: which coach models exist, who may pick them, and how a call is funded. */
module Catalog {
  import opened Wrappers

  datatype Tier = Homelab | ByokTier
  datatype Provider = Anthropic | OpenRouter | Ollama
  datatype CredentialMode = ServerKey | ClientDirect | Local | Locked

  /** A stored or requested key: one of the nine in the catalog, or any other string. */
  datatype ModelKey =
    | OrGlm52 | OrClaudeSonnet | OrGpt41 | OrGeminiFlash | OrDeepseek | OrLlama70b
    | ClaudeSonnet | ClaudeHaiku
    | QwenCoach
    | OtherKey(name: string)

  datatype Entry = Entry(key: ModelKey, provider: Provider, allowedTiers: set<Tier>)

  function ByKey(key: Option<ModelKey>): Option<Entry> {
    match key
    case None => None
    case Some(OtherKey(_)) => None
    case Some(QwenCoach) => Some(Entry(QwenCoach, Ollama, {Homelab}))
    case Some(ClaudeSonnet) => Some(Entry(ClaudeSonnet, Anthropic, {Homelab, ByokTier}))
    case Some(ClaudeHaiku) => Some(Entry(ClaudeHaiku, Anthropic, {Homelab, ByokTier}))
    case Some(k) => Some(Entry(k, OpenRouter, {Homelab, ByokTier}))
  }

  function DefaultModel(tier: Tier): Entry {
    ByKey(Some(if tier == Homelab then QwenCoach else OrGlm52)).value
  }

  /** None stands for ModelNotAllowed. */
  function ValidateChoice(requested: Option<ModelKey>, tier: Tier, hasLocal: bool): Option<Entry> {
    if requested == None then Some(DefaultModel(tier))
    else match ByKey(requested)
      case None => None
      case Some(entry) =>
        if tier !in entry.allowedTiers then None
        else if entry.provider == Ollama && !hasLocal then None
        else Some(entry)
  }

  /** Reset carries the model forward, or falls back to the tier's default. */
  function CarriedModel(prior: Option<ModelKey>, tier: Tier, hasLocal: bool): Entry {
    match ValidateChoice(prior, tier, hasLocal)
    case Some(entry) => entry
    case None => DefaultModel(tier)
  }

  function EntryForTier(stored: Option<ModelKey>, tier: Tier): Entry {
    match ByKey(stored)
    case None => DefaultModel(tier)
    case Some(entry) => if tier in entry.allowedTiers then entry else DefaultModel(tier)
  }

  datatype CoachResolution = CoachResolution(entry: Option<Entry>, mode: CredentialMode)

  function ResolveCoach(stored: Option<ModelKey>, tier: Tier, hasServerKey: bool, prefersLocal: bool, hasLocal: bool)
    : CoachResolution
  {
    var entry := EntryForTier(stored, tier);
    if tier == ByokTier then CoachResolution(Some(entry), ClientDirect)
    else if entry.provider == Ollama then CoachResolution(Some(entry), if hasLocal then Local else Locked)
    else if prefersLocal then CoachResolution(None, Local)
    else if entry.provider == Anthropic && hasServerKey then CoachResolution(Some(entry), ServerKey)
    else CoachResolution(Some(entry), Locked)
  }

  /** The transport flag a model choice pins on its session. */
  function TransportOf(entry: Entry): bool {
    entry.provider != Ollama
  }

  /** A stored model that the catalog serves in the cloud. */
  predicate NamesCloudModel(stored: Option<ModelKey>) {
    ByKey(stored).Some? && ByKey(stored).value.provider != Ollama
  }

  /** Every accepted choice is a catalog entry stored under its own key and open to the caller's tier. */
  lemma ChoicesAreCatalogEntries(requested: Option<ModelKey>, tier: Tier, hasLocal: bool)
    ensures var c := ValidateChoice(requested, tier, hasLocal);
            c.Some? ==> ByKey(Some(c.value.key)) == c && tier in c.value.allowedTiers
    ensures var e := CarriedModel(requested, tier, hasLocal);
            ByKey(Some(e.key)) == Some(e) && tier in e.allowedTiers
    ensures TransportOf(CarriedModel(requested, tier, hasLocal))
        <==> NamesCloudModel(Some(CarriedModel(requested, tier, hasLocal).key))
  {
  }

  /** The server's own key funds a coach call in exactly one case: an operator's session that stores
      a direct Anthropic model, a key is configured, and the local preference is off. */
  lemma ServerKeySpentIff(stored: Option<ModelKey>, tier: Tier, hasServerKey: bool, prefersLocal: bool, hasLocal: bool)
    ensures ResolveCoach(stored, tier, hasServerKey, prefersLocal, hasLocal).mode == ServerKey
       <==> tier == Homelab && stored in {Some(ClaudeSonnet), Some(ClaudeHaiku)} && hasServerKey && !prefersLocal
  {
  }

  /** The catalog: each known key names its own entry, with this provider, open to these tiers; no other
      string names one. */
  lemma CatalogIs(key: ModelKey)
    ensures ByKey(None) == None
    ensures ByKey(Some(key)).Some? <==> !key.OtherKey?
    ensures ByKey(Some(key)).Some? ==>
              var e := ByKey(Some(key)).value;
              && e.key == key
              && (e.provider == Ollama <==> key == QwenCoach)
              && (e.provider == Anthropic <==> key == ClaudeSonnet || key == ClaudeHaiku)
              && Homelab in e.allowedTiers && (ByokTier in e.allowedTiers <==> key != QwenCoach)
  {
  }

  /** A requested key is chosen if and only if the catalog has it, the tier may use it and, if it is
      local, a local model is there; and then it is that key that is chosen. No request is a request for
      the tier's default, whatever is there. */
  lemma ChosenIff(key: ModelKey, tier: Tier, hasLocal: bool)
    ensures var chosen := ValidateChoice(Some(key), tier, hasLocal);
            && (chosen.Some? <==> !key.OtherKey? && (key == QwenCoach ==> tier == Homelab && hasLocal))
            && (chosen.Some? ==> chosen.value.key == key)
    ensures ValidateChoice(None, tier, hasLocal).Some?
    ensures ValidateChoice(None, tier, hasLocal).value.key == match tier case Homelab => QwenCoach case ByokTier => OrGlm52
  {
  }

  /** A reset keeps the model that may still be chosen, and else takes the tier's default. */
  lemma CarriedIff(key: ModelKey, tier: Tier, hasLocal: bool)
    ensures var carried := CarriedModel(Some(key), tier, hasLocal).key;
            if !key.OtherKey? && (key == QwenCoach ==> tier == Homelab && hasLocal) then carried == key
            else carried == match tier case Homelab => QwenCoach case ByokTier => OrGlm52
    ensures CarriedModel(None, tier, hasLocal).key == match tier case Homelab => QwenCoach case ByokTier => OrGlm52
  {
  }

  /** How a call is funded, case by case: which model answers, and on whose key. */
  lemma ResolutionIs(key: ModelKey, tier: Tier, hasServerKey: bool, prefersLocal: bool, hasLocal: bool)
    ensures var r := ResolveCoach(Some(key), tier, hasServerKey, prefersLocal, hasLocal);
            match tier
            case ByokTier => r.mode == ClientDirect && r.entry.Some?
                             && r.entry.value.key == if key.OtherKey? || key == QwenCoach then OrGlm52 else key
            case Homelab =>
              if key.OtherKey? || key == QwenCoach then
                r.mode == (if hasLocal then Local else Locked) && r.entry.Some? && r.entry.value.key == QwenCoach
              else if prefersLocal then r.mode == Local && r.entry == None
              else r.mode == (if key in {ClaudeSonnet, ClaudeHaiku} && hasServerKey then ServerKey else Locked)
                   && r.entry.Some? && r.entry.value.key == key
    ensures ResolveCoach(None, tier, hasServerKey, prefersLocal, hasLocal)
         == ResolveCoach(Some(OtherKey("")), tier, hasServerKey, prefersLocal, hasLocal)
  {
  }
}
