/**
 * Requests that interleave. Between any two steps of one request, steps of others may run; each read may
 * see any earlier snapshot of the tables; a request may stop for good at any point.
 */
module Interleaving {
  import opened Wrappers
  import opened Text
  import opened Scopes
  import opened AuthTables
  import opened TokenService
  import opened OAuthFlow
  import opened Provenance

  /** A step of a request that concerned a code or a refresh token: which, and how long the history was then. */
  datatype Stamp = Stamp(what: Source, at: nat)

  /**
   * Which requests found a code unused or a refresh token in place, which marked the code or deleted the
   * token, and which request minted each token.
   */
  datatype Audit = Audit(readings: map<nat, Stamp>, markings: map<nat, Stamp>, minters: map<string, nat>)

  /** `history` holds every version of the tables, the current one last. */
  datatype Sys = Sys(history: seq<Tables>, ledger: Ledger, flights: map<nat, Phase>, begun: set<nat>, audit: Audit)
  {
    function Current(): Tables
      requires history != []
    {
      history[|history| - 1]
    }
  }

  const INITIAL := Sys([NO_TABLES], NO_LEDGER, map[], {}, Audit(map[], map[], map[]))

  datatype Act =
    | Begin(id: nat, req: Request)
    | Step(id: nat, snap: nat, env: Env)
    | Abandon(id: nat)

  /** A step needs an unfinished request and a snapshot from the history; random tokens never repeat. */
  predicate Enabled(sys: Sys, act: Act) {
    && sys.history != []
    && match act
       case Begin(id, _) => id !in sys.begun
       case Step(id, snap, env) => id in sys.flights && snap < |sys.history| && env.token !in sys.ledger.mints
       case Abandon(id) => id in sys.flights && !sys.flights[id].Done?
  }

  /** The code or token that a request has found good and not yet turned into tokens. */
  function Held(ph: Phase): Option<Source> {
    match ph
    case MarkCode(g, _) => Some(FromCode(g.code))
    case ReadCodeUser(g, _) => Some(FromCode(g.code))
    case InsertFirst(g, _, _, _) => Some(FromCode(g.code))
    case DropRotated(r, _) => Some(FromToken(r.token))
    case ReadTokenUser(r, _) => Some(FromToken(r.token))
    case InsertNext(r, _, _, _) => Some(FromToken(r.token))
    case _ => None
  }

  /** The step that finds it. */
  predicate Finds(ph: Phase, ph': Phase) {
    (ph.ReadCode? && ph'.MarkCode?) || (ph.ReadToken? && ph'.DropRotated?)
  }

  /** The code that a step marks, or the token that it deletes. */
  function Spends(ph: Phase): Option<Source> {
    match ph
    case MarkCode(g, _) => Some(FromCode(g.code))
    case DropRotated(r, _) => Some(FromToken(r.token))
    case DropExpired(r) => Some(FromToken(r.token))
    case DropRevoked(token) => Some(FromToken(token))
    case _ => None
  }

  predicate Mints(ph: Phase, ph': Phase) {
    (ph.InsertFirst? || ph.InsertNext?) && ph'.Done? && ph'.answer.Success?
  }

  /** Deleting a string that is no token on record is no event. */
  predicate OnRecord(what: Source, mints: map<string, Mint>) {
    what.FromToken? ==> what.token in mints
  }

  function Observe(
    a: Audit, id: nat, env: Env, ph: Phase, ph': Phase, now: nat, mints: map<string, Mint>): Audit
  {
    if Finds(ph, ph') then a.(readings := a.readings[id := Stamp(Held(ph').value, now)])
    else if Spends(ph).Some? && OnRecord(Spends(ph).value, mints)
    then a.(markings := a.markings[id := Stamp(Spends(ph).value, now)])
    else if Mints(ph, ph') then a.(minters := a.minters[env.token := id])
    else a
  }

  function TakeStep(k: Config, sys: Sys, id: nat, snap: nat, env: Env): Sys
    requires Enabled(sys, Step(id, snap, env))
  {
    var ph := sys.flights[id];
    var (s', ph') := Advance(k, env, sys.history[snap], State(sys.Current(), sys.ledger), ph);
    Sys(sys.history + [s'.tables], s'.ledger, sys.flights[id := ph'], sys.begun,
        Observe(sys.audit, id, env, ph, ph', |sys.history|, sys.ledger.mints))
  }

  function Next(k: Config, sys: Sys, act: Act): Sys
    requires Enabled(sys, act)
  {
    match act
    case Begin(id, req) => sys.(flights := sys.flights[id := Start(req)], begun := sys.begun + {id})
    case Step(id, snap, env) => TakeStep(k, sys, id, snap, env)
    case Abandon(id) => sys.(flights := sys.flights - {id})
  }

  ghost predicate RunOk(k: Config, sys: Sys, acts: seq<Act>)
    decreases |acts|
  {
    acts == [] || (Enabled(sys, acts[0]) && RunOk(k, Next(k, sys, acts[0]), acts[1..]))
  }

  ghost function Run(k: Config, sys: Sys, acts: seq<Act>): Sys
    requires RunOk(k, sys, acts)
    decreases |acts|
  {
    if acts == [] then sys else Run(k, Next(k, sys, acts[0]), acts[1..])
  }

  // ---------------------------------------------------------------- soundness in every run

  ghost predicate SysSound(k: Config, sys: Sys) {
    && sys.history != []
    && StateSound(k, State(sys.Current(), sys.ledger))
    && (forall i | 0 <= i < |sys.history| ::
          TablesSound(sys.ledger, sys.history[i]) && Older(sys.history[i], sys.Current()))
    && (forall id | id in sys.flights :: PhaseSound(k, sys.Current(), sys.ledger, sys.flights[id]))
  }

  lemma OlderIsTransitive(a: Tables, b: Tables, c: Tables)
    requires Older(a, b) && Older(b, c)
    ensures Older(a, c)
  {
  }

  lemma TakeStepKeepsSound(k: Config, sys: Sys, id: nat, snap: nat, env: Env)
    requires SysSound(k, sys) && Enabled(sys, Step(id, snap, env))
    ensures SysSound(k, TakeStep(k, sys, id, snap, env))
    ensures Grows(sys.ledger, TakeStep(k, sys, id, snap, env).ledger)
  {
    hide StateSound, TablesSound, PhaseSound, Older, Grows, Advance;
    var s := State(sys.Current(), sys.ledger);
    var (s', ph') := Advance(k, env, sys.history[snap], s, sys.flights[id]);
    var sys' := TakeStep(k, sys, id, snap, env);
    StepKeeps(k, env, sys.history[snap], s, sys.flights[id]);
    assert sys'.Current() == s'.tables;
    NothingChanged(s'.tables, s'.ledger);
    StateSoundTables(k, s');
    forall i | 0 <= i < |sys'.history|
      ensures TablesSound(sys'.ledger, sys'.history[i]) && Older(sys'.history[i], sys'.Current())
    {
      if i < |sys.history| {
        TablesSoundGrows(sys.ledger, sys'.ledger, sys.history[i]);
        OlderIsTransitive(sys.history[i], s.tables, s'.tables);
      }
    }
    forall j | j in sys'.flights ensures PhaseSound(k, sys'.Current(), sys'.ledger, sys'.flights[j]) {
      if j != id {
        PhaseSoundGrows(k, s.tables, s'.tables, s.ledger, s'.ledger, sys.flights[j]);
      }
    }
  }

  lemma StateSoundTables(k: Config, s: State)
    requires StateSound(k, s)
    ensures TablesSound(s.ledger, s.tables)
  {
  }

  lemma NextKeepsSound(k: Config, sys: Sys, act: Act)
    requires SysSound(k, sys) && Enabled(sys, act)
    ensures SysSound(k, Next(k, sys, act)) && Grows(sys.ledger, Next(k, sys, act).ledger)
  {
    hide StateSound, TablesSound, Older, Grows;
    NothingChanged(sys.Current(), sys.ledger);
    if act.Step? {
      TakeStepKeepsSound(k, sys, act.id, act.snap, act.env);
    }
  }

  /** Soundness holds in every run, and nothing once issued is ever altered. */
  lemma {:induction false} RunKeepsSound(k: Config, sys: Sys, acts: seq<Act>)
    requires SysSound(k, sys) && RunOk(k, sys, acts)
    ensures SysSound(k, Run(k, sys, acts)) && Grows(sys.ledger, Run(k, sys, acts).ledger)
    decreases |acts|
  {
    hide SysSound, Grows;
    if acts == [] {
      NothingChanged(NO_TABLES, sys.ledger);
    } else {
      var sys' := Next(k, sys, acts[0]);
      NextKeepsSound(k, sys, acts[0]);
      RunKeepsSound(k, sys', acts[1..]);
      GrowsIsTransitive(sys.ledger, sys'.ledger, Run(k, sys, acts).ledger);
    }
  }

  lemma GrowsIsTransitive(a: Ledger, b: Ledger, c: Ledger)
    requires Grows(a, b) && Grows(b, c)
    ensures Grows(a, c)
  {
  }

  lemma InitialIsSound(k: Config)
    ensures SysSound(k, INITIAL)
  {
  }

  // ---------------------------------------------------------------- chains

  /** A rotation chain: it starts at the token, each link came from the next, the last from the code. */
  ghost predicate IsChain(l: Ledger, chain: seq<string>, token: string, code: string) {
    && chain != [] && chain[0] == token
    && (forall i | 0 <= i < |chain| :: chain[i] in l.mints)
    && (forall i | 0 <= i < |chain| - 1 :: l.mints[chain[i]].lineage.source == FromToken(chain[i + 1]))
    && l.mints[chain[|chain| - 1]].lineage.source == FromCode(code)
  }

  ghost predicate MintsSound(k: Config, l: Ledger) {
    forall t | t in l.mints :: MintSound(k, l, t, l.mints[t])
  }

  /** The chain of a token, whose length is one more than the number of refreshes. */
  lemma {:induction false} ChainExists(k: Config, l: Ledger, token: string) returns (chain: seq<string>)
    requires MintsSound(k, l) && token in l.mints
    ensures IsChain(l, chain, token, l.mints[token].lineage.code)
    ensures |chain| == l.mints[token].lineage.rank + 1
    decreases l.mints[token].lineage.rank
  {
    var lin := l.mints[token].lineage;
    assert MintSound(k, l, token, l.mints[token]);
    match lin.source
    case FromCode(c) => chain := [token];
    case FromToken(p) =>
      var rest := ChainExists(k, l, p);
      hide MintsSound, MintSound, IsChain;
      chain := [token] + rest;
      ChainExtends(l, rest, p, lin.code, token);
  }

  lemma ChainExtends(l: Ledger, rest: seq<string>, p: string, code: string, token: string)
    requires IsChain(l, rest, p, code) && token in l.mints && l.mints[token].lineage.source == FromToken(p)
    ensures IsChain(l, [token] + rest, token, code)
  {
    var chain := [token] + rest;
    assert forall i | 1 <= i < |chain| :: chain[i] == rest[i - 1];
  }

  lemma LastLinkIsFromCode(l: Ledger, chain: seq<string>, token: string, code: string)
    requires IsChain(l, chain, token, code)
    ensures |chain| == 1 <==> l.mints[token].lineage.source.FromCode?
  {
    if |chain| > 1 {
      var i := 0;
      assert l.mints[chain[i]].lineage.source == FromToken(chain[i + 1]);
    }
  }

  /** A token has only one chain, so it comes from exactly one code. */
  lemma {:induction false} ChainIsUnique(l: Ledger, a: seq<string>, b: seq<string>, token: string, c: string, d: string)
    requires IsChain(l, a, token, c) && IsChain(l, b, token, d)
    ensures a == b && c == d
    decreases |a|
  {
    LastLinkIsFromCode(l, a, token, c);
    LastLinkIsFromCode(l, b, token, d);
    if |a| == 1 {
      assert a == [token] && b == [token];
    } else {
      assert a[1] == b[1];
      assert IsChain(l, a[1..], a[1], c) && IsChain(l, b[1..], a[1], d);
      ChainIsUnique(l, a[1..], b[1..], a[1], c, d);
      assert a == [a[0]] + a[1..] && b == [b[0]] + b[1..];
    }
  }

  /** Every link of a chain carries the user, client and scope string of the grant it ends in. */
  lemma {:induction false} ChainCarriesGrant(k: Config, l: Ledger, chain: seq<string>, token: string, code: string, i: nat)
    requires MintsSound(k, l) && IsChain(l, chain, token, code) && i < |chain|
    ensures var row := l.mints[chain[i]].row; OfGrant(l, code, row.userId, row.clientId, row.scopes)
    ensures l.mints[chain[i]].lineage.code == code && l.mints[chain[i]].lineage.rank == |chain| - 1 - i
    decreases |chain| - i
  {
    assert MintSound(k, l, chain[i], l.mints[chain[i]]);
    if i + 1 < |chain| {
      ChainCarriesGrant(k, l, chain, token, code, i + 1);
    }
  }

  /** What a refresh token's history must be: one chain, back to one `authorize` that checked the login. */
  ghost predicate TracesToAuthorize(k: Config, m: Tables, l: Ledger, token: string, chain: seq<string>, code: string) {
    && IsChain(l, chain, token, code)
    && code in l.grants && GrantSound(k, m, code, l.grants[code])
    && (forall i | 0 <= i < |chain| ::
          var row := l.mints[chain[i]].row; OfGrant(l, code, row.userId, row.clientId, row.scopes))
    && (forall chain', code' :: IsChain(l, chain', token, code') ==> chain' == chain && code' == code)
  }

  lemma SoundTokenTraces(k: Config, m: Tables, l: Ledger, token: string) returns (chain: seq<string>)
    requires LedgerSound(k, m, l) && token in l.mints
    ensures TracesToAuthorize(k, m, l, token, chain, l.mints[token].lineage.code)
  {
    assert MintsSound(k, l);
    var code := l.mints[token].lineage.code;
    chain := ChainExists(k, l, token);
    assert MintSound(k, l, token, l.mints[token]);
    assert GrantSound(k, m, code, l.grants[code]);
    hide GrantSound, MintSound, LedgerSound;
    forall i | 0 <= i < |chain|
      ensures var row := l.mints[chain[i]].row; OfGrant(l, code, row.userId, row.clientId, row.scopes)
    {
      ChainCarriesGrant(k, l, chain, token, code, i);
    }
    forall chain', code' | IsChain(l, chain', token, code') ensures chain' == chain && code' == code {
      ChainIsUnique(l, chain, chain', token, code, code');
    }
  }

  /**
   * In every run, however requests interleave and however stale their reads, every refresh token traces
   * through one chain of rotations to one `authorize` that checked its user's credentials, with the same
   * user, client and scope string on every link, and scopes the client registered.
   */
  lemma EveryRefreshTokenTraces(k: Config, acts: seq<Act>, token: string) returns (chain: seq<string>)
    requires RunOk(k, INITIAL, acts) && token in Run(k, INITIAL, acts).ledger.mints
    ensures
      var sys := Run(k, INITIAL, acts);
      && sys.history != []
      && TracesToAuthorize(k, sys.Current(), sys.ledger, token, chain, sys.ledger.mints[token].lineage.code)
  {
    InitialIsSound(k);
    RunKeepsSound(k, INITIAL, acts);
    var sys := Run(k, INITIAL, acts);
    chain := SoundTokenTraces(k, sys.Current(), sys.ledger, token);
  }

  /**
   * What an access token's history must be: its claims name the user, client and scopes of its grant, or its own
   * client and scopes that client registered.
   */
  ghost predicate AccessTraces(k: Config, m: Tables, l: Ledger, a: Access) {
    if a.lineage.None? then
      && a.claims.clientId in m.clients && Allowed(a.claims.scopes, m.clients[a.claims.clientId].scopes)
      && Carries(a.claims, a.at, a.claims.clientId, None, a.claims.clientId, a.claims.scopes, k.accessTtlSecs)
    else
      var lin := a.lineage.value;
      && LineageSound(l, lin)
      && var row := l.grants[lin.code].row;
      && row.userId in m.users
      && Carries(a.claims, a.at, IntToString(row.userId), Some(m.users[row.userId].email), row.clientId, row.scopes,
                 k.accessTtlSecs)
      && GrantSound(k, m, lin.code, l.grants[lin.code])
      && (lin.source.FromToken? ==> exists chain :: TracesToAuthorize(k, m, l, lin.source.token, chain, lin.code))
  }

  lemma AccessCarries(k: Config, s: State, a: Access)
    requires StateSound(k, s) && AccessSound(k, s.tables, s.ledger, a)
    ensures
      if a.lineage.None? then
        Carries(a.claims, a.at, a.claims.clientId, None, a.claims.clientId, a.claims.scopes, k.accessTtlSecs)
      else
        var row := s.ledger.grants[a.lineage.value.code].row;
        && row.userId in s.tables.users
        && Carries(a.claims, a.at, IntToString(row.userId), Some(s.tables.users[row.userId].email), row.clientId, row.scopes,
                   k.accessTtlSecs)
  {
    hide LedgerSound, IntToString;
  }

  /** The same for every access token ever minted, returned to its client or not. */
  lemma EveryAccessTokenTraces(k: Config, acts: seq<Act>, i: nat)
    requires RunOk(k, INITIAL, acts) && i < |Run(k, INITIAL, acts).ledger.access|
    ensures
      var sys := Run(k, INITIAL, acts);
      sys.history != [] && AccessTraces(k, sys.Current(), sys.ledger, sys.ledger.access[i])
  {
    InitialIsSound(k);
    RunKeepsSound(k, INITIAL, acts);
    var sys := Run(k, INITIAL, acts);
    var a := sys.ledger.access[i];
    assert AccessSound(k, sys.Current(), sys.ledger, a);
    AccessCarries(k, State(sys.Current(), sys.ledger), a);
    if a.lineage.Some? {
      var lin := a.lineage.value;
      assert GrantSound(k, sys.Current(), lin.code, sys.ledger.grants[lin.code]);
      if lin.source.FromToken? {
        var chain := SoundTokenTraces(k, sys.Current(), sys.ledger, lin.source.token);
        assert TracesToAuthorize(k, sys.Current(), sys.ledger, lin.source.token, chain, lin.code);
      }
    }
  }
}
