/**
 Which harness, model backend and Anthropic account an agent runs with: how Create and Update
 resolve them, and what stays true of the record over every run.
 */
module Backend {
  import opened Agents

  const OLLAMA := "ollama"
  const ANTHROPIC := "anthropic"
  const CLAUDE_CODE := "claude-code"
  const OPENCODE := "opencode"

  datatype AccountKind = ApiKey | OAuth | UnknownKind

  datatype Account = Account(kind: AccountKind, value: string)

  /** The accounts in the store and the name of the default one ("" when none is set). */
  datatype Accounts = Accounts(byId: map<string, Account>, default: string)

  datatype Config = Config(backend: string, model: string, fastModel: string, url: string, validUrl: string -> bool)

  /** The backend fields of a create or update request; empty strings are "not given". */
  datatype Request = Request(backend: string, harness: string, model: string, fastModel: string, url: string, account: string)

  datatype Error = InvalidBackend | InvalidUrl | NoAuth | UnknownAccount | BadAccountKind | InvalidHarness | Incompatible

  datatype Result<+T> = Ok(value: T) | Err(error: Error)

  datatype Resolved = Resolved(kind: string, model: string, fastModel: string, url: string, account: string, apiKey: string, oauth: string)

  /** The fields of the agent record this concerns. */
  datatype Spec = Spec(harness: string, backend: string, model: string, fastModel: string, url: string, account: string)

  function FirstNonEmpty(a: string, b: string): string { if a != "" then a else b }

  predicate ValidBackend(s: string) { s == OLLAMA || s == ANTHROPIC }

  predicate ValidHarness(s: string) { s == CLAUDE_CODE || s == OPENCODE }

  /** A record without a harness, or with an unknown one, counts as claude-code. */
  function NormalizeHarness(s: string): string { if s == OPENCODE then OPENCODE else CLAUDE_CODE }

  predicate Supports(harness: string, backend: string) { harness != OPENCODE || backend != ANTHROPIC }

  function ResolveOllama(cfg: Config, req: Request): Result<Resolved> {
    var url := FirstNonEmpty(req.url, cfg.url);
    if url != "" && !cfg.validUrl(url) then Err(InvalidUrl)
    else Ok(Resolved(OLLAMA, FirstNonEmpty(req.model, cfg.model), FirstNonEmpty(req.fastModel, cfg.fastModel), url, "", "", ""))
  }

  /** An existing pin is kept, dangling or not; only an unpinned agent falls back to the request and then to the default. */
  function ResolveAnthropic(db: Accounts, asked: string, existing: string): Result<Resolved> {
    var fromRequest := existing == "" && asked != "";
    var id := FirstNonEmpty(FirstNonEmpty(existing, asked), db.default);
    if id == "" then Err(NoAuth)
    else if id !in db.byId then Err(if fromRequest then UnknownAccount else NoAuth)
    else
      var a := db.byId[id];
      match a.kind
      case ApiKey => Ok(Resolved(ANTHROPIC, "", "", "", id, a.value, ""))
      case OAuth => Ok(Resolved(ANTHROPIC, "", "", "", id, "", a.value))
      case UnknownKind => Err(BadAccountKind)
  }

  function ResolveBackend(cfg: Config, db: Accounts, req: Request, existing: string): Result<Resolved> {
    var kind := FirstNonEmpty(req.backend, cfg.backend);
    if !ValidBackend(kind) then Err(InvalidBackend)
    else if kind == OLLAMA then ResolveOllama(cfg, req)
    else ResolveAnthropic(db, req.account, existing)
  }

  datatype ResolvedSpec = ResolvedSpec(rb: Resolved, harness: string)

  function ResolveSpec(cfg: Config, db: Accounts, req: Request, existing: string): Result<ResolvedSpec> {
    var rb := ResolveBackend(cfg, db, req, existing);
    if rb.Err? then Err(rb.error)
    else
      var harness := FirstNonEmpty(req.harness, CLAUDE_CODE);
      if !ValidHarness(harness) then Err(InvalidHarness)
      else if !Supports(harness, rb.value.kind) then Err(Incompatible)
      else Ok(ResolvedSpec(rb.value, harness))
  }

  function SpecOf(harness: string, rb: Resolved): Spec {
    Spec(harness, rb.kind, rb.model, rb.fastModel, rb.url, rb.account)
  }

  /** What a wake-up or resume resolves again from the record alone. */
  function ResolveFromSpec(cfg: Config, db: Accounts, s: Spec): Result<Resolved> {
    ResolveBackend(cfg, db, Request(s.backend, "", s.model, s.fastModel, s.url, ""), s.account)
  }

  // ---------------------------------------------------------------- resolving again

  /** Two account stores agree on one account; the default may differ. */
  predicate SameAccount(db: Accounts, db': Accounts, id: string) {
    id in db.byId && id in db'.byId && db.byId[id] == db'.byId[id]
  }

  /**
   Resolving from the record reproduces what Create or Update resolved, credential included, as
   long as the configuration and the pinned account are unchanged -- whatever the default has become.
   */
  lemma ReResolveReproduces(cfg: Config, db: Accounts, db': Accounts, req: Request, existing: string, harness: string)
    requires ResolveBackend(cfg, db, req, existing).Ok?
    requires var rb := ResolveBackend(cfg, db, req, existing).value; rb.account != "" ==> SameAccount(db, db', rb.account)
    ensures var rb := ResolveBackend(cfg, db, req, existing).value; ResolveFromSpec(cfg, db', SpecOf(harness, rb)) == Ok(rb)
  {
    var rb := ResolveBackend(cfg, db, req, existing).value;
    var kind := FirstNonEmpty(req.backend, cfg.backend);
    if kind == ANTHROPIC {
      assert rb.account != "" && rb.account in db.byId;
    }
  }

  // ---------------------------------------------------------------- what a request gets

  /** The account the rules pick: the pin, else the one the request names, else the default. */
  predicate Picks(db: Accounts, pin: string, named: string, id: string) {
    id != "" && (pin == id || (pin == "" && named == id) || (pin == "" && named == "" && db.default == id))
  }

  /** The backend the rules pick: the requested one, else the configured one. */
  predicate Picked(cfg: Config, req: Request, kind: string) {
    if req.backend != "" then kind == req.backend else kind == cfg.backend
  }

  /** An account the rules may pick exists and has a known kind. */
  predicate Usable(db: Accounts, id: string) {
    id in db.byId && !db.byId[id].kind.UnknownKind?
  }

  /** The credential of an account goes into the variable of its kind, and no other. */
  predicate Carries(rb: Resolved, a: Account) {
    match a.kind
    case ApiKey => rb.apiKey == a.value && rb.oauth == ""
    case OAuth => rb.apiKey == "" && rb.oauth == a.value
    case UnknownKind => false
  }

  /** A request on anthropic is granted exactly one account, with its credential, or is told what is wrong. */
  lemma AnthropicGrants(cfg: Config, db: Accounts, req: Request, pin: string)
    requires Picked(cfg, req, "anthropic")
    ensures var r := ResolveBackend(cfg, db, req, pin);
            && (r.Ok? <==> exists id :: Picks(db, pin, req.account, id) && Usable(db, id))
            && (r.Ok? ==> && r.value.kind == "anthropic" && r.value.model == r.value.fastModel == r.value.url == ""
                          && Picks(db, pin, req.account, r.value.account) && Usable(db, r.value.account)
                          && Carries(r.value, db.byId[r.value.account]))
            && (r == Err(UnknownAccount) <==> pin == "" && req.account != "" && req.account !in db.byId)
            && (r == Err(NoAuth) <==> !(pin == "" && req.account != "")
                                      && forall id | Picks(db, pin, req.account, id) :: id !in db.byId)
            && (r.Err? ==> r.error in {UnknownAccount, NoAuth, BadAccountKind})
  {
    var id := if pin != "" then pin else if req.account != "" then req.account else db.default;
    assert forall x :: Picks(db, pin, req.account, x) <==> x == id != "";
    if id != "" { assert Picks(db, pin, req.account, id); }
  }

  /** A request on ollama is granted each field it gives and the configured value of each it does not. */
  lemma OllamaGrants(cfg: Config, db: Accounts, req: Request, pin: string)
    requires Picked(cfg, req, "ollama")
    ensures var r := ResolveBackend(cfg, db, req, pin);
            var url := if req.url == "" then cfg.url else req.url;
            && (r == Err(InvalidUrl) <==> url != "" && !cfg.validUrl(url))
            && (r.Ok? <==> r != Err(InvalidUrl))
            && (r.Ok? ==> r.value == Resolved("ollama", if req.model == "" then cfg.model else req.model,
                                              if req.fastModel == "" then cfg.fastModel else req.fastModel, url, "", "", ""))
  {
  }

  /** The harness is checked against the backend that was picked, after the backend's own checks. */
  lemma HarnessGrants(cfg: Config, db: Accounts, req: Request, pin: string)
    ensures var rb := ResolveBackend(cfg, db, req, pin);
            var r := ResolveSpec(cfg, db, req, pin);
            && (rb == Err(InvalidBackend) <==> forall kind | Picked(cfg, req, kind) :: kind != "ollama" && kind != "anthropic")
            && (rb.Err? ==> r == Err(rb.error))
            && (rb.Ok? ==> Picked(cfg, req, rb.value.kind))
            && (rb.Ok? && req.harness !in {"", "claude-code", "opencode"} ==> r == Err(InvalidHarness))
            && (rb.Ok? && req.harness == "opencode" && rb.value.kind == "anthropic" ==> r == Err(Incompatible))
            && (rb.Ok? && req.harness == "opencode" && rb.value.kind != "anthropic" ==> r == Ok(ResolvedSpec(rb.value, "opencode")))
            && (rb.Ok? && req.harness in {"", "claude-code"} ==> r == Ok(ResolvedSpec(rb.value, "claude-code")))
  {
    assert Picked(cfg, req, if req.backend != "" then req.backend else cfg.backend);
  }

  // ---------------------------------------------------------------- every run

  /** The record, an Update that has resolved its request and not yet written it, and the renames checked and not yet written. */
  datatype State = State(spec: Option<Spec>, pending: Option<Resolved>, renames: multiset<string>, db: Accounts)

  datatype Action =
    | Create(req: Request)
    | BeginUpdate(req: Request)
    | ApplyUpdate
    | AbandonUpdate
    | CheckRename(account: string)
    | WriteRename(account: string)
    | Remove
    | ChangeAccounts(db: Accounts)

  function Next(cfg: Config, s: State, a: Action): State {
    match a
    case Create(req) =>
      var r := ResolveSpec(cfg, s.db, req, "");
      if s.spec.Some? || r.Err? then s else s.(spec := Some(SpecOf(r.value.harness, r.value.rb)))
    case BeginUpdate(req) =>
      if s.spec.None? || s.pending.Some? then s
      else
        var r := ResolveSpec(cfg, s.db, req, s.spec.value.account);
        if r.Err? || !Supports(NormalizeHarness(s.spec.value.harness), r.value.rb.kind) then s
        else s.(pending := Some(r.value.rb))
    case ApplyUpdate =>
      if s.spec.None? || s.pending.None? then s
      else s.(spec := Some(SpecOf(s.spec.value.harness, s.pending.value)), pending := None)
    case AbandonUpdate => s.(pending := None)
    case CheckRename(account) =>
      if s.spec.None? || s.spec.value.backend != ANTHROPIC || account !in s.db.byId then s
      else s.(renames := s.renames + multiset{account})
    case WriteRename(account) =>
      if account !in s.renames then s
      else s.(renames := s.renames - multiset{account},
              spec := if s.spec.None? then None else Some(s.spec.value.(account := account)))
    case Remove => if s.pending.Some? then s else s.(spec := None)
    case ChangeAccounts(db) => s.(db := db)
  }

  function After(cfg: Config, s: State, acts: seq<Action>): State
    decreases |acts|
  {
    if acts == [] then s else Next(cfg, After(cfg, s, acts[..|acts| - 1]), acts[|acts| - 1])
  }

  predicate Compatible(s: State) {
    && (s.spec.Some? ==> ValidBackend(s.spec.value.backend) && Supports(NormalizeHarness(s.spec.value.harness), s.spec.value.backend))
    && (s.pending.Some? ==> s.spec.Some? && ValidBackend(s.pending.value.kind)
                            && Supports(NormalizeHarness(s.spec.value.harness), s.pending.value.kind))
  }

  lemma CreateCompatible(cfg: Config, s: State, req: Request)
    requires Compatible(s)
    ensures Compatible(Next(cfg, s, Create(req)))
  {
  }

  lemma UpdateCompatible(cfg: Config, s: State, req: Request)
    requires Compatible(s)
    ensures Compatible(Next(cfg, s, BeginUpdate(req)))
  {
  }

  lemma NextCompatible(cfg: Config, s: State, a: Action)
    requires Compatible(s)
    ensures Compatible(Next(cfg, s, a))
  {
    match a
    case Create(req) => CreateCompatible(cfg, s, req);
    case BeginUpdate(req) => UpdateCompatible(cfg, s, req);
    case _ =>
  }

  /** A new agent on anthropic is pinned to the account its request names, or to the default when it names none. */
  lemma CreatePinsTheNamedAccount(cfg: Config, s: State, req: Request)
    requires s.spec.None? && Picked(cfg, req, "anthropic")
    ensures var s' := Next(cfg, s, Create(req));
            && s' == s.(spec := s'.spec)
            && (s'.spec.Some? <==> req.harness in {"", "claude-code"} && exists id :: Picks(s.db, "", req.account, id) && Usable(s.db, id))
            && (s'.spec.Some? ==> && s'.spec.value == Spec("claude-code", "anthropic", "", "", "", s'.spec.value.account)
                                  && Picks(s.db, "", req.account, s'.spec.value.account) && Usable(s.db, s'.spec.value.account))
  {
    AnthropicGrants(cfg, s.db, req, "");
    HarnessGrants(cfg, s.db, req, "");
  }

  /** A new agent on ollama has each field of its request, and the configured value of each the request leaves out. */
  lemma CreateTakesTheRequest(cfg: Config, s: State, req: Request)
    requires s.spec.None? && !Picked(cfg, req, "anthropic")
    ensures var s' := Next(cfg, s, Create(req));
            var url := if req.url == "" then cfg.url else req.url;
            && s' == s.(spec := s'.spec)
            && (s'.spec.Some? <==> && Picked(cfg, req, "ollama") && (url != "" ==> cfg.validUrl(url))
                                   && req.harness in {"", "claude-code", "opencode"})
            && (s'.spec.Some? ==> s'.spec.value == Spec(if req.harness == "" then "claude-code" else req.harness, "ollama",
                                                        if req.model == "" then cfg.model else req.model,
                                                        if req.fastModel == "" then cfg.fastModel else req.fastModel, url, ""))
  {
    if Picked(cfg, req, "ollama") { OllamaGrants(cfg, s.db, req, ""); }
    HarnessGrants(cfg, s.db, req, "");
  }

  /** Begins and ends an Update with nothing in between. */
  function Updated(cfg: Config, s: State, req: Request): State {
    Next(cfg, Next(cfg, s, BeginUpdate(req)), ApplyUpdate)
  }

  /**
   An Update to anthropic keeps the pin, and on an agent that has none picks as Create does; the old container's
   harness stays, whatever the request says, and must support the backend.
   */
  lemma UpdatePicksAsCreate(cfg: Config, s: State, req: Request)
    requires s.spec.Some? && s.pending.None? && Picked(cfg, req, "anthropic")
    ensures var s' := Next(cfg, s, BeginUpdate(req));
            var pin := s.spec.value.account;
            && s' == s.(pending := s'.pending)
            && (s'.pending.Some? <==> && req.harness in {"", "claude-code"} && s.spec.value.harness != "opencode"
                                      && exists id :: Picks(s.db, pin, req.account, id) && Usable(s.db, id))
            && (s'.pending.Some? ==> && Picks(s.db, pin, req.account, s'.pending.value.account)
                                     && Usable(s.db, s'.pending.value.account)
                                     && Carries(s'.pending.value, s.db.byId[s'.pending.value.account])
                                     && Updated(cfg, s, req) == s.(spec := Some(
                                          Spec(s.spec.value.harness, "anthropic", "", "", "", s'.pending.value.account))))
            && (s'.pending.None? ==> Updated(cfg, s, req) == s)
  {
    AnthropicGrants(cfg, s.db, req, s.spec.value.account);
    HarnessGrants(cfg, s.db, req, s.spec.value.account);
  }

  /** An Update to ollama writes the request's fields and the configured ones, and drops the pin. */
  lemma UpdateTakesTheRequest(cfg: Config, s: State, req: Request)
    requires s.spec.Some? && s.pending.None? && !Picked(cfg, req, "anthropic")
    ensures var url := if req.url == "" then cfg.url else req.url;
            Updated(cfg, s, req) ==
              if Picked(cfg, req, "ollama") && (url != "" ==> cfg.validUrl(url)) && req.harness in {"", "claude-code", "opencode"} then
                s.(spec := Some(Spec(s.spec.value.harness, "ollama", if req.model == "" then cfg.model else req.model,
                                     if req.fastModel == "" then cfg.fastModel else req.fastModel, url, "")))
              else s
  {
    if Picked(cfg, req, "ollama") { OllamaGrants(cfg, s.db, req, s.spec.value.account); }
    HarnessGrants(cfg, s.db, req, s.spec.value.account);
  }

  /** No run pairs opencode with anthropic. */
  lemma {:induction false} HarnessAlwaysSupportsBackend(cfg: Config, s: State, acts: seq<Action>)
    requires Compatible(s)
    ensures Compatible(After(cfg, s, acts))
    decreases |acts|
  {
    if acts != [] {
      HarnessAlwaysSupportsBackend(cfg, s, acts[..|acts| - 1]);
      NextCompatible(cfg, After(cfg, s, acts[..|acts| - 1]), acts[|acts| - 1]);
    }
  }

  /** The agent is there in every state of the run. */
  ghost predicate Survives(cfg: Config, s: State, acts: seq<Action>) {
    forall k | 0 <= k <= |acts| :: After(cfg, s, acts[..k]).spec.Some?
  }

  lemma SurvivesPrefix(cfg: Config, s: State, acts: seq<Action>, n: nat)
    requires Survives(cfg, s, acts) && n <= |acts|
    ensures Survives(cfg, s, acts[..n])
  {
    forall k | 0 <= k <= n ensures After(cfg, s, acts[..n][..k]).spec.Some? {
      assert acts[..n][..k] == acts[..k];
    }
  }

  /** The harness chosen at create stays for as long as the agent exists. */
  lemma {:induction false} HarnessNeverChanges(cfg: Config, s: State, acts: seq<Action>)
    requires Survives(cfg, s, acts)
    ensures s.spec.Some? && After(cfg, s, acts).spec.Some?
    ensures After(cfg, s, acts).spec.value.harness == s.spec.value.harness
    decreases |acts|
  {
    assert acts[..0] == [] && acts[..|acts|] == acts;
    if acts != [] {
      SurvivesPrefix(cfg, s, acts, |acts| - 1);
      HarnessNeverChanges(cfg, s, acts[..|acts| - 1]);
    }
  }

  // ---------------------------------------------------------------- the pinned account

  predicate Pinned(s: State) {
    s.spec.Some? && s.spec.value.backend == ANTHROPIC && s.spec.value.account != ""
  }

  /** An Update of a pinned agent that stays on anthropic resolves to the account pinned at that moment. */
  lemma UpdateResolvesThePin(cfg: Config, s: State, req: Request)
    requires Pinned(s) && s.pending.None?
    ensures var s' := Next(cfg, s, BeginUpdate(req));
            s'.pending.Some? && s'.pending.value.kind == ANTHROPIC ==> s'.pending.value.account == s.spec.value.account
  {
  }

  predicate Between(acts: seq<Action>) {
    forall k | 0 <= k < |acts| :: !acts[k].ApplyUpdate? && !acts[k].AbandonUpdate?
  }

  lemma {:induction false} PendingStays(cfg: Config, s: State, acts: seq<Action>)
    requires s.spec.Some? && s.pending.Some? && Between(acts)
    ensures After(cfg, s, acts).pending == s.pending && After(cfg, s, acts).spec.Some?
    decreases |acts|
  {
    if acts != [] {
      PendingStays(cfg, s, acts[..|acts| - 1]);
    }
  }

  /** The account of the last rename written during the actions, if any was. */
  function LastRename(cfg: Config, s: State, acts: seq<Action>): Option<string>
    decreases |acts|
  {
    if acts == [] then None
    else
      var n := |acts| - 1;
      if Accepted(After(cfg, s, acts[..n]), acts[n]) then Some(acts[n].account) else LastRename(cfg, s, acts[..n])
  }

  predicate Accepted(s: State, a: Action) {
    a.WriteRename? && s.spec.Some? && a.account in s.renames
  }

  /** While an Update is under way only the write of a rename that passed its check moves the pin. */
  lemma {:induction false} PinFollowsRenames(cfg: Config, s: State, acts: seq<Action>)
    requires s.spec.Some? && s.pending.Some? && Between(acts)
    ensures var t := After(cfg, s, acts);
            && t.spec.Some?
            && t.spec.value.account == match LastRename(cfg, s, acts) case None => s.spec.value.account case Some(x) => x
    decreases |acts|
  {
    if acts != [] {
      var n := |acts| - 1;
      PendingStays(cfg, s, acts[..n]);
      PinFollowsRenames(cfg, s, acts[..n]);
    }
  }

  /**
   Whatever happens while an Update of a pinned agent is under way, the record ends with the account that was
   pinned when the Update began.  So the Update keeps the pin it finds exactly when no rename was accepted
   meanwhile, or the last one named the same account; any other is lost.
   */
  lemma UpdateWritesTheOldPin(cfg: Config, s: State, req: Request, acts: seq<Action>)
    requires Pinned(s) && s.pending.None? && Between(acts)
    requires var s1 := Next(cfg, s, BeginUpdate(req)); s1.pending.Some? && s1.pending.value.kind == ANTHROPIC
    ensures var s1 := Next(cfg, s, BeginUpdate(req));
            var s2 := After(cfg, s1, acts);
            var s3 := Next(cfg, s2, ApplyUpdate);
            && s2.spec.Some? && s3.spec.Some? && s3.spec.value.account == s.spec.value.account
            && (s3.spec.value.account == s2.spec.value.account <==>
                LastRename(cfg, s1, acts).None? || LastRename(cfg, s1, acts) == Some(s.spec.value.account))
  {
    var s1 := Next(cfg, s, BeginUpdate(req));
    UpdateResolvesThePin(cfg, s, req);
    PendingStays(cfg, s1, acts);
    PinFollowsRenames(cfg, s1, acts);
  }

  /** The two halves of a rename with nothing in between. */
  function Renamed(cfg: Config, s: State, account: string): State {
    Next(cfg, Next(cfg, s, CheckRename(account)), WriteRename(account))
  }

  /** A rename moves the pin, and nothing else, exactly when the agent is on anthropic and the account is stored. */
  lemma RenameMovesThePin(cfg: Config, s: State, account: string)
    requires s.spec.Some? && account !in s.renames
    ensures Renamed(cfg, s, account) ==
            if s.spec.value.backend == "anthropic" && account in s.db.byId then s.(spec := Some(s.spec.value.(account := account))) else s
  {
    assert s.renames + multiset{account} - multiset{account} == s.renames;
  }

  /** A rename made while an Update is under way has no effect on the record the Update leaves. */
  lemma RenameDuringUpdateIsLost(cfg: Config, s: State, req: Request, account: string)
    requires Pinned(s) && s.pending.None? && account in s.db.byId && account != s.spec.value.account
    requires var s1 := Next(cfg, s, BeginUpdate(req)); s1.pending.Some? && s1.pending.value.kind == ANTHROPIC
    ensures var s2 := Renamed(cfg, Next(cfg, s, BeginUpdate(req)), account);
            && s2.spec.Some? && s2.spec.value.account == account
            && Next(cfg, s2, ApplyUpdate).spec.value.account == s.spec.value.account != account
  {
    var s1 := Next(cfg, s, BeginUpdate(req));
    var acts := [CheckRename(account), WriteRename(account)];
    assert acts[..1] == [CheckRename(account)] && acts[..1][..0] == [];
    assert After(cfg, s1, acts[..1]) == Next(cfg, After(cfg, s1, []), CheckRename(account));
    assert After(cfg, s1, acts) == Renamed(cfg, s1, account);
    UpdateWritesTheOldPin(cfg, s, req, acts);
  }

  /** Only agents on anthropic have a pin, and only Updates to anthropic are about to write one. */
  predicate Tidy(s: State) {
    && (s.spec.Some? && s.spec.value.backend != ANTHROPIC ==> s.spec.value.account == "")
    && (s.pending.Some? && s.pending.value.kind != ANTHROPIC ==> s.pending.value.account == "")
  }

  /** The one step that breaks this: the write of a rename whose agent has left anthropic since the check. */
  lemma TidyExactly(cfg: Config, s: State, a: Action)
    requires Tidy(s)
    ensures Tidy(Next(cfg, s, a)) <==>
            !(a.WriteRename? && a.account in s.renames && a.account != "" && s.spec.Some? && s.spec.value.backend != ANTHROPIC)
  {
    match a
    case Create(req) => CreateTidy(cfg, s, req);
    case BeginUpdate(req) => BeginTidy(cfg, s, req);
    case _ =>
  }

  lemma CreateTidy(cfg: Config, s: State, req: Request)
    requires Tidy(s)
    ensures Tidy(Next(cfg, s, Create(req)))
  {
  }

  lemma BeginTidy(cfg: Config, s: State, req: Request)
    requires Tidy(s)
    ensures Tidy(Next(cfg, s, BeginUpdate(req)))
  {
  }

  /**
   The check and the write of a rename are two transactions.  When an Update to ollama falls between them, the
   ollama agent ends with a pin, and a later Update to anthropic runs with it, whatever account that one names.
   */
  lemma RenameCanPinAnOllamaAgent(cfg: Config, s: State, req: Request, account: string, back: Request)
    requires Pinned(s) && s.pending.None? && s.renames == multiset{} && Usable(s.db, account) && account != ""
    requires s.spec.value.harness == "claude-code" && back.harness == ""
    requires req == Request("ollama", "", "", "", "", "") && cfg.url == "" && Picked(cfg, back, "anthropic")
    ensures var s1 := Updated(cfg, Next(cfg, s, CheckRename(account)), req);
            var s2 := Next(cfg, s1, WriteRename(account));
            && s2.spec.Some? && s2.spec.value.backend == "ollama" && s2.spec.value.account == account
            && Updated(cfg, s2, back).spec == Some(Spec("claude-code", "anthropic", "", "", "", account))
  {
    var s0 := Next(cfg, s, CheckRename(account));
    UpdateTakesTheRequest(cfg, s0, req);
    var s2 := Next(cfg, Updated(cfg, s0, req), WriteRename(account));
    assert Picks(s2.db, account, back.account, account);
    UpdatePicksAsCreate(cfg, s2, back);
  }
}
