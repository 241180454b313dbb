/**
 The Anthropic account store and its one-time migration from the single shared credential.
 */
module Accounts {
  import opened Agents
  import Backend

  /** A named credential. */
  datatype Named = Named(name: string, account: Backend.Account)

  /** An agent record; `rest` stands for every field the migration does not read. */
  datatype Agent = Agent(backend: string, pin: string, rest: nat)

  predicate UniqueNames(accounts: map<string, Named>) {
    forall i, j | i in accounts && j in accounts && accounts[i].name == accounts[j].name :: i == j
  }

  /** The agents that were using the shared credential. */
  predicate Unpinned(a: Agent) { a.backend == "anthropic" && a.pin == "" }

  function Pin(a: Agent, id: string): Agent {
    if Unpinned(a) then a.(pin := id) else a
  }

  // ---------------------------------------------------------------- what a pin means

  /** What an agent pinned like this runs with: the kind and the value of its credential. */
  function Credential(db: Backend.Accounts, pin: string): Option<Backend.Account> {
    if pin in db.byId then Some(db.byId[pin]) else None
  }

  /** The credential is what the backend resolution hands the container. */
  lemma CredentialIsResolved(db: Backend.Accounts, pin: string, asked: string)
    requires pin != ""
    ensures var r := Backend.ResolveAnthropic(db, asked, pin);
            match Credential(db, pin)
            case None => r == Backend.Err(Backend.NoAuth)
            case Some(a) =>
              match a.kind
              case ApiKey => r == Backend.Ok(Backend.Resolved(Backend.ANTHROPIC, "", "", "", pin, a.value, ""))
              case OAuth => r == Backend.Ok(Backend.Resolved(Backend.ANTHROPIC, "", "", "", pin, "", a.value))
              case UnknownKind => r == Backend.Err(Backend.BadAccountKind)
  {
  }

  // ---------------------------------------------------------------- the store

  class Store {
    var accounts: map<string, Named>
    var default: string                       // "" when none is set
    var legacy: Option<Backend.Account>       // the shared credential of older versions
    var agents: map<Id, Agent>
    ghost var migrations: nat                 // how often a migration has taken effect
    ghost var failures: nat                   // how many transactions failed

    /** Names are unique, a set default names a stored account, and the legacy credential migrates at most once. */
    ghost predicate Valid()
      reads this
    {
      && UniqueNames(accounts) && "" !in accounts && (default != "" ==> default in accounts)
      && migrations + (if legacy.Some? then 1 else 0) <= 1
    }

    function Db(): Backend.Accounts
      reads this
    {
      Backend.Accounts(map id | id in accounts :: accounts[id].account, default)
    }

    /** A store of any earlier version: no accounts yet. */
    constructor (legacy: Option<Backend.Account>, agents: map<Id, Agent>)
      ensures Valid() && accounts == map[] && this.legacy == legacy && this.agents == agents && migrations == 0
    {
      accounts, default, this.legacy, this.agents, migrations, failures := map[], "", legacy, agents, 0, 0;
    }

    /** Whether a transaction goes through; one that fails writes nothing. */
    method Commit() returns (ok: bool)
      modifies this`failures
      ensures failures == old(failures) + if ok then 0 else 1
    {
      ok := *;
      if !ok { failures := failures + 1; }
    }

    /** Walks the stored accounts: is the name taken, and is there none at all? */
    method Scan(name: string) returns (taken: bool, first: bool)
      ensures taken <==> exists k :: k in accounts && accounts[k].name == name
      ensures !taken ==> (first <==> accounts == map[])
    {
      first := true;
      var rest := accounts.Keys;
      while rest != {}
        invariant rest <= accounts.Keys && (first ==> rest == accounts.Keys) && (!first ==> accounts != map[])
        invariant forall k | k in accounts.Keys - rest :: accounts[k].name != name
        decreases |rest|
      {
        var k :| k in rest;
        first := false;
        if accounts[k].name == name { return true, false; }
        rest := rest - {k};
      }
      taken := false;
    }

    /** `id` is a freshly generated identifier. */
    method CreateAccount(id: string, name: string, account: Backend.Account) returns (ok: bool)
      requires Valid() && id != "" && id !in accounts
      modifies this`accounts, this`default, this`failures
      ensures Valid()
      ensures ok <==> failures == old(failures) && name != "" && account.value != "" && !account.kind.UnknownKind?
                      && forall k | k in old(accounts) :: old(accounts)[k].name != name
      ensures ok ==> accounts == old(accounts)[id := Named(name, account)]
                     && default == if old(accounts) == map[] then id else old(default)
      ensures !ok ==> accounts == old(accounts) && default == old(default)
    {
      if name == "" || account.kind.UnknownKind? || account.value == "" { return false; }
      var taken, first := Scan(name);
      if taken { return false; }
      ok := Commit();
      if !ok { return; }
      accounts := accounts[id := Named(name, account)];
      if first { default := id; }
    }

    /** Deleting an account that does not exist is a success. */
    method DeleteAccount(id: string) returns (ok: bool)
      requires Valid()
      modifies this`accounts, this`default, this`failures
      ensures Valid() && (ok <==> failures == old(failures))
      ensures ok ==> accounts == old(accounts) - {id} && default == if old(default) == id then "" else old(default)
      ensures !ok ==> accounts == old(accounts) && default == old(default)
    {
      ok := Commit();
      if !ok { return; }
      accounts := accounts - {id};
      if default == id { default := ""; }
    }

    method SetDefault(id: string) returns (ok: bool)
      requires Valid()
      modifies this`default, this`failures
      ensures Valid() && (ok <==> failures == old(failures) && id in accounts) && default == if ok then id else old(default)
    {
      if id == "" || id !in accounts { return false; }
      ok := Commit();
      if ok { default := id; }
    }

    /** Any other writer of agent records. */
    method WriteAgent(id: Id, a: Agent)
      requires Valid()
      modifies this`agents
      ensures Valid() && agents == old(agents)[id := a]
    {
      agents := agents[id := a];
    }

    /** Opening the store: either nothing changes, or the legacy credential becomes the default account and the unpinned agents' pin. */
    method Migrate(id: string) returns (ok: bool)
      requires Valid() && id != "" && id !in accounts
      modifies this
      ensures Valid() && (ok <==> failures == old(failures))
      ensures migrations == old(migrations) + (if ok && old(accounts) == map[] && old(legacy).Some? then 1 else 0)
      ensures migrations == old(migrations) ==>
                accounts == old(accounts) && default == old(default) && legacy == old(legacy) && agents == old(agents)
      ensures migrations != old(migrations) ==>
                && legacy.None? && accounts == map[id := Named("Default", old(legacy).value)] && default == id
                && agents.Keys == old(agents).Keys
                && forall a | a in agents ::
                     if Unpinned(old(agents)[a]) then
                       agents[a] == old(agents)[a].(pin := id) && Credential(Db(), agents[a].pin) == old(legacy)
                     else agents[a] == old(agents)[a]
    {
      ok := Commit();               // one transaction: a failure rolls all of it back
      if !ok { return; }
      if accounts != map[] || legacy.None? { return; }
      var pins := CollectPins(id);
      ApplyPins(pins, id);
      accounts := accounts[id := Named("Default", legacy.value)];
      default, legacy := id, None;
      migrations := migrations + 1;
    }

    /** The first loop: which records will be rewritten. */
    method CollectPins(id: string) returns (pins: map<Id, Agent>)
      ensures forall a :: a in pins <==> a in agents && Unpinned(agents[a])
      ensures forall a | a in pins :: pins[a] == Pin(agents[a], id)
    {
      pins := map[];
      var rest := agents.Keys;
      while rest != {}
        invariant rest <= agents.Keys
        invariant forall a :: a in pins <==> a in agents.Keys - rest && Unpinned(agents[a])
        invariant forall a | a in pins :: pins[a] == Pin(agents[a], id)
        decreases |rest|
      {
        var a :| a in rest;
        if Unpinned(agents[a]) { pins := pins[a := agents[a].(pin := id)]; }
        rest := rest - {a};
      }
    }

    /** The second loop: the writes. */
    method ApplyPins(pins: map<Id, Agent>, id: string)
      requires forall a :: a in pins <==> a in agents && Unpinned(agents[a])
      requires forall a | a in pins :: pins[a] == Pin(agents[a], id)
      modifies this`agents
      ensures agents == map a | a in old(agents) :: Pin(old(agents)[a], id)
    {
      var rest := pins.Keys;
      while rest != {}
        invariant rest <= pins.Keys && agents.Keys == old(agents).Keys
        invariant forall a | a in agents :: agents[a] == if a in pins && a !in rest then pins[a] else old(agents)[a]
        decreases |rest|
      {
        var a :| a in rest;
        agents := agents[a := pins[a]];
        rest := rest - {a};
      }
    }
  }
}
