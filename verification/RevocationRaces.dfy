/**
 * Revocation among requests that overlap with it, on one database: what may still be issued afterwards comes
 * from a request that looked before the deletion, or from a sibling token that is still there.
 */
module RevocationRaces {
  import opened Wrappers
  import opened AuthTables
  import opened TokenService
  import opened OAuthFlow
  import opened Provenance
  import opened Interleaving
  import opened Redemptions
  import opened Overlaps

  /** At that moment the code was unused, or the token in place. */
  predicate Usable(base: Sys, what: Source)
    requires base.history != []
  {
    match what
    case FromCode(c) => c in base.Current().codes && !base.Current().codes[c].used
    case FromToken(x) => x in base.Current().tokens
  }

  /** At that moment this request had found it and was still at work. */
  predicate HeldBy(base: Sys, id: nat, what: Source) {
    id in base.flights && Held(base.flights[id]) == Some(what)
  }

  ghost predicate InFlight(base: Sys, what: Source) {
    exists id :: HeldBy(base, id, what)
  }

  /** This request could still turn it into tokens, or it is a code that was not there yet. */
  predicate AliveFor(base: Sys, id: nat, what: Source)
    requires base.history != []
  {
    Usable(base, what) || HeldBy(base, id, what) || (what.FromCode? && what.code !in base.Current().codes)
  }

  /** Some request could still turn it into tokens, or it is a code that was not there yet. */
  ghost predicate Alive(base: Sys, what: Source)
    requires base.history != []
  {
    || Usable(base, what) || InFlight(base, what)
    || (what.FromCode? && what.code !in base.Current().codes)
  }

  predicate IsLater(base: Sys, l: Ledger, t: string) {
    t in l.mints && t !in base.ledger.mints
  }

  ghost predicate Path(l: Ledger, chain: seq<string>, t: string) {
    && chain != [] && chain[0] == t && (forall i | 0 <= i < |chain| :: chain[i] in l.mints)
    && (forall i | 0 <= i < |chain| - 1 :: l.mints[chain[i]].lineage.source == FromToken(chain[i + 1]))
  }

  /** A chain of rotations back to a token minted later, from something alive for its minter at that moment. */
  ghost predicate RootedBy(base: Sys, l: Ledger, minters: map<string, nat>, t: string, chain: seq<string>)
    requires base.history != []
  {
    && Path(l, chain, t)
    && var a := chain[|chain| - 1];
       IsLater(base, l, a) && a in minters && AliveFor(base, minters[a], l.mints[a].lineage.source)
  }

  ghost predicate Rooted(base: Sys, l: Ledger, minters: map<string, nat>, t: string)
    requires base.history != []
  {
    exists chain :: RootedBy(base, l, minters, t, chain)
  }

  /** What tokens may come from later on. */
  ghost predicate Admissible(base: Sys, l: Ledger, what: Source)
    requires base.history != []
  {
    Alive(base, what) || (what.FromToken? && IsLater(base, l, what.token))
  }

  ghost predicate AdmissibleFor(base: Sys, l: Ledger, id: nat, what: Source)
    requires base.history != []
  {
    AliveFor(base, id, what) || (what.FromToken? && IsLater(base, l, what.token))
  }

  ghost predicate RowsSince(base: Sys, t: Tables, l: Ledger)
    requires base.history != []
  {
    && (forall x | x in t.tokens :: x in base.Current().tokens || IsLater(base, l, x))
    && (forall c | c in base.Current().codes :: c in t.codes && (base.Current().codes[c].used ==> t.codes[c].used))
  }

  ghost predicate LedgerSince(base: Sys, l: Ledger, minters: map<string, nat>)
    requires base.history != []
  {
    && |base.ledger.access| <= |l.access|
    && (forall t | IsLater(base, l, t) :: Rooted(base, l, minters, t))
    && (forall i | |base.ledger.access| <= i < |l.access| && l.access[i].lineage.Some? ::
          Admissible(base, l, l.access[i].lineage.value.source))
  }

  ghost predicate FlightsSince(base: Sys, l: Ledger, flights: map<nat, Phase>)
    requires base.history != []
  {
    forall id | id in flights && Held(flights[id]).Some? :: AdmissibleFor(base, l, id, Held(flights[id]).value)
  }

  ghost predicate Since(base: Sys, sys: Sys)
    requires base.history != []
  {
    && sys.history != [] && RowsSince(base, sys.Current(), sys.ledger)
    && LedgerSince(base, sys.ledger, sys.audit.minters) && FlightsSince(base, sys.ledger, sys.flights)
  }

  lemma SinceItself(k: Config, sys: Sys)
    requires SysSound(k, sys)
    ensures Since(sys, sys)
  {
    SoundHistory(k, sys);
    hide SysSound;
  }

  lemma SoundHistory(k: Config, sys: Sys)
    requires SysSound(k, sys)
    ensures sys.history != [] && forall x | x in sys.Current().tokens :: x in sys.ledger.mints
  {
    hide LedgerSound;
  }

  // ---------------------------------------------------------------- one step

  lemma PathGrows(l: Ledger, l': Ledger, chain: seq<string>, t: string)
    requires Path(l, chain, t) && forall x | x in l.mints :: x in l'.mints && l'.mints[x] == l.mints[x]
    ensures Path(l', chain, t)
  {
  }

  ghost predicate MintsKept(l: Ledger, l': Ledger) {
    forall x | x in l.mints :: x in l'.mints && l'.mints[x] == l.mints[x]
  }

  /** Nobody is recorded anew for a token that was there already. */
  ghost predicate MintersKept(l: Ledger, minters: map<string, nat>, minters': map<string, nat>) {
    forall x | x in l.mints && x in minters :: x in minters' && minters'[x] == minters[x]
  }

  lemma ObserveKeepsMintersOf(a: Audit, id: nat, env: Env, ph: Phase, ph': Phase, now: nat, l: Ledger)
    requires env.token !in l.mints
    ensures
      var minters' := Observe(a, id, env, ph, ph', now, l.mints).minters;
      && MintersKept(l, a.minters, minters')
      && (Mints(ph, ph') ==> env.token in minters' && minters'[env.token] == id)
  {
    hide OnRecord;
  }

  lemma RootedGrows(
    base: Sys, l: Ledger, l': Ledger, minters: map<string, nat>, minters': map<string, nat>, t: string)
    requires base.history != [] && Rooted(base, l, minters, t)
    requires MintsKept(l, l') && MintersKept(l, minters, minters')
    ensures Rooted(base, l', minters', t)
  {
    hide AliveFor;
    var chain :| RootedBy(base, l, minters, t, chain);
    PathGrows(l, l', chain, t);
    assert RootedBy(base, l', minters', t, chain);
  }

  lemma AdmissibleGrows(base: Sys, l: Ledger, l': Ledger, what: Source)
    requires base.history != [] && MintsKept(l, l')
    ensures Admissible(base, l, what) ==> Admissible(base, l', what)
    ensures forall id :: AdmissibleFor(base, l, id, what) ==> AdmissibleFor(base, l', id, what) && Admissible(base, l', what)
  {
    forall id | AliveFor(base, id, what) ensures Alive(base, what) {
    }
    hide Alive, AliveFor;
  }

  lemma PathExtends(l: Ledger, t: string, chain: seq<string>, x: string)
    requires Path(l, chain, x) && t in l.mints && l.mints[t].lineage.source == FromToken(x)
    ensures Path(l, [t] + chain, t) && ([t] + chain)[|chain|] == chain[|chain| - 1]
  {
  }

  /** What is minted from something admissible is rooted. */
  lemma MintIsRooted(
    base: Sys, l: Ledger, l': Ledger, minters: map<string, nat>, minters': map<string, nat>, t: string)
    requires base.history != [] && LedgerSince(base, l, minters)
    requires MintsKept(l, l') && MintersKept(l, minters, minters')
    requires IsLater(base, l', t) && t in minters'
    requires AdmissibleFor(base, l, minters'[t], l'.mints[t].lineage.source)
    ensures Rooted(base, l', minters', t)
  {
    hide AliveFor;
    var what := l'.mints[t].lineage.source;
    if AliveFor(base, minters'[t], what) {
      assert RootedBy(base, l', minters', t, [t]);
    } else {
      RootedGrows(base, l, l', minters, minters', what.token);
      var chain :| RootedBy(base, l', minters', what.token, chain);
      PathExtends(l', t, chain, what.token);
      hide Path;
      assert RootedBy(base, l', minters', t, [t] + chain);
    }
  }

  lemma StepKeepsLedger(base: Sys, l: Ledger, l': Ledger, minters: map<string, nat>, minters': map<string, nat>,
                        id: nat, env: Env, ph: Phase, ph': Phase)
    requires base.history != [] && LedgerSince(base, l, minters) && MintsStep(env, ph, ph', l.mints, l'.mints)
    requires Issues(l, l', Held(ph), env.now) && env.token !in l.mints
    requires MintsKept(l, l') && MintersKept(l, minters, minters')
    requires Mints(ph, ph') ==> env.token in minters' && minters'[env.token] == id
    requires Held(ph).Some? ==> AdmissibleFor(base, l, id, Held(ph).value)
    ensures LedgerSince(base, l', minters')
  {
    hide Alive, Rooted, Admissible, AdmissibleFor, Held, MintsKept, MintersKept, Mints;
    forall t | IsLater(base, l', t) ensures Rooted(base, l', minters', t) {
      if t in l.mints {
        RootedGrows(base, l, l', minters, minters', t);
      } else {
        MintIsRooted(base, l, l', minters, minters', t);
      }
    }
    forall i | |base.ledger.access| <= i < |l'.access| && l'.access[i].lineage.Some?
      ensures Admissible(base, l', l'.access[i].lineage.value.source)
    {
      AdmissibleGrows(base, l, l', l'.access[i].lineage.value.source);
    }
  }

  /** What is found in up-to-date tables is admissible. */
  lemma FoundIsAdmissible(base: Sys, t: Tables, l: Ledger, ph: Phase, ph': Phase)
    requires base.history != [] && RowsSince(base, t, l) && HoldsOn(t, ph, ph') && Finds(ph, ph')
    ensures Held(ph').Some? && forall id :: AdmissibleFor(base, l, id, Held(ph').value)
  {
    hide HeldBy;
  }

  lemma StepKeepsFlights(base: Sys, t: Tables, l: Ledger, l': Ledger, flights: map<nat, Phase>, id: nat, ph': Phase)
    requires base.history != [] && FlightsSince(base, l, flights) && RowsSince(base, t, l)
    requires id in flights && HoldsOn(t, flights[id], ph') && MintsKept(l, l')
    ensures FlightsSince(base, l', flights[id := ph'])
  {
    hide Admissible, AdmissibleFor, MintsKept;
    var flights' := flights[id := ph'];
    forall j | j in flights' && Held(flights'[j]).Some? ensures AdmissibleFor(base, l', j, Held(flights'[j]).value) {
      if j == id && Finds(flights[id], ph') {
        FoundIsAdmissible(base, t, l, flights[id], ph');
      }
      AdmissibleGrows(base, l, l', Held(flights'[j]).value);
    }
  }

  lemma StepKeepsRows(base: Sys, t: Tables, l: Ledger, t': Tables, l': Ledger, env: Env)
    requires base.history != [] && RowsSince(base, t, l) && UsedStays(t, t') && MintsKept(l, l')
    requires t'.tokens.Keys <= t.tokens.Keys + {env.token} && env.token !in l.mints
    requires forall x | x in t'.tokens :: x in l'.mints
    requires forall x | x in base.ledger.mints :: x in l.mints
    ensures RowsSince(base, t', l')
  {
  }

  // ---------------------------------------------------------------- every continuation

  lemma GrowsKeepsMints(l: Ledger, l': Ledger)
    requires Grows(l, l')
    ensures MintsKept(l, l')
  {
  }

  lemma TakeStepKeepsSince(k: Config, base: Sys, sys: Sys, id: nat, env: Env)
    requires base.history != [] && Since(base, sys) && MintsKept(base.ledger, sys.ledger)
    requires SysSound(k, sys) && Enabled(sys, Step(id, |sys.history| - 1, env))
    ensures
      var sys' := TakeStep(k, sys, id, |sys.history| - 1, env);
      Since(base, sys') && MintsKept(base.ledger, sys'.ledger)
  {
    hide RowsSince, LedgerSince, FlightsSince, SysSound, Advance, Grows, MintsStep, HoldsOn, UsedStays, Issues;
    hide Observe, Held;
    var t, l := sys.Current(), sys.ledger;
    var s, ph := State(t, l), sys.flights[id];
    var (s', ph') := Advance(k, env, t, s, ph);
    var sys' := TakeStep(k, sys, id, |sys.history| - 1, env);
    assert sys'.Current() == s'.tables;
    TakeStepKeepsSound(k, sys, id, |sys.history| - 1, env);
    SoundHistory(k, sys');
    GrowsKeepsMints(l, s'.ledger);
    AdvanceHoldsOn(k, env, t, s, ph);
    AdvanceMints(k, env, t, s, ph);
    AdvanceKeepsUsed(k, env, t, s, ph);
    AdvanceTokens(k, env, t, s, ph);
    AdvanceIssues(k, env, t, s, ph);
    HeldIsAdmissible(base, l, sys.flights, id);
    StepKeepsRows(base, t, l, s'.tables, s'.ledger, env);
    ObserveKeepsMintersOf(sys.audit, id, env, ph, ph', |sys.history|, l);
    StepKeepsLedger(base, l, s'.ledger, sys.audit.minters, sys'.audit.minters, id, env, ph, ph');
    StepKeepsFlights(base, t, l, s'.ledger, sys.flights, id, ph');
  }

  lemma HeldIsAdmissible(base: Sys, l: Ledger, flights: map<nat, Phase>, id: nat)
    requires base.history != [] && FlightsSince(base, l, flights) && id in flights
    ensures Held(flights[id]).Some? ==> AdmissibleFor(base, l, id, Held(flights[id]).value)
  {
  }

  lemma FewerFlights(base: Sys, l: Ledger, flights: map<nat, Phase>, id: nat, req: Request)
    requires base.history != [] && FlightsSince(base, l, flights)
    ensures FlightsSince(base, l, flights[id := Start(req)]) && FlightsSince(base, l, flights - {id})
  {
    hide AdmissibleFor;
  }

  lemma NextKeepsSince(k: Config, base: Sys, sys: Sys, act: Act)
    requires base.history != [] && Since(base, sys) && MintsKept(base.ledger, sys.ledger)
    requires SysSound(k, sys) && Enabled(sys, act) && (act.Step? ==> act.snap == |sys.history| - 1)
    ensures var sys' := Next(k, sys, act); Since(base, sys') && MintsKept(base.ledger, sys'.ledger)
  {
    hide RowsSince, LedgerSince, FlightsSince, SysSound, TakeStep, MintsKept;
    match act
    case Step(id, _, env) => TakeStepKeepsSince(k, base, sys, id, env);
    case Begin(id, req) => FewerFlights(base, sys.ledger, sys.flights, id, req);
    case Abandon(id) => FewerFlights(base, sys.ledger, sys.flights, id, Revoke("", "", ""));
  }

  lemma {:induction false} RunKeepsSince(k: Config, base: Sys, sys: Sys, acts: seq<Act>)
    requires base.history != [] && Since(base, sys) && MintsKept(base.ledger, sys.ledger)
    requires SysSound(k, sys) && RunOk(k, sys, acts) && UpToDate(k, sys, acts)
    ensures Since(base, Run(k, sys, acts))
    decreases |acts|
  {
    hide Since, SysSound, MintsKept;
    if acts != [] {
      NextKeepsSince(k, base, sys, acts[0]);
      NextKeepsSound(k, sys, acts[0]);
      RunKeepsSince(k, base, Next(k, sys, acts[0]), acts[1..]);
    }
  }

  // ---------------------------------------------------------------- one code

  /** A chain of rotations stays within one code. */
  lemma {:induction false} PathKeepsCode(k: Config, l: Ledger, chain: seq<string>, t: string, i: nat)
    requires MintsSound(k, l) && Path(l, chain, t) && i < |chain|
    ensures l.mints[chain[i]].lineage.code == l.mints[t].lineage.code
  {
    hide OfGrant;
    if i > 0 {
      PathKeepsCode(k, l, chain, t, i - 1);
      assert MintSound(k, l, chain[i - 1], l.mints[chain[i - 1]]);
    }
  }

  lemma SourceKeepsCode(k: Config, l: Ledger, t: string)
    requires MintsSound(k, l) && t in l.mints
    ensures
      var lin := l.mints[t].lineage;
      match lin.source
      case FromCode(c) => c == lin.code
      case FromToken(p) => p in l.mints && l.mints[p].lineage.code == lin.code
  {
    assert MintSound(k, l, t, l.mints[t]);
  }

  /** Everything minted from a code came after it was marked. */
  lemma CodeOfMintIsUsed(k: Config, sys: Sys, x: string)
    requires Audited(sys) && MintsSound(k, sys.ledger) && x in sys.ledger.mints
    ensures Gone(FromCode(sys.ledger.mints[x].lineage.code), sys.Current(), sys.ledger.mints)
  {
    hide FlightsAudited, MintersDone, MintsSound;
    var chain := ChainExists(k, sys.ledger, x);
    var root := chain[|chain| - 1];
    assert root in sys.ledger.mints && Stamped(sys.audit.markings, sys.audit.minters[root], FromCode(sys.ledger.mints[x].lineage.code));
  }

  predicate InPlace(sys: Sys, what: Source)
    requires sys.history != []
  {
    what.FromToken? && what.token in sys.Current().tokens
  }

  /** The code itself, or a token on record that descends from it. */
  predicate OfCode(sys: Sys, code: string, what: Source) {
    match what
    case FromCode(c) => c == code
    case FromToken(p) => p in sys.ledger.mints && sys.ledger.mints[p].lineage.code == code
  }

  /** What may still be turned into tokens of this code: what requests hold, and refresh tokens in place. */
  ghost predicate AliveOf(sys: Sys, code: string, what: Source)
    requires sys.history != []
  {
    OfCode(sys, code, what) && (InFlight(sys, what) || InPlace(sys, what))
  }

  /**
   * A chain of rotations from t back to a token that was minted later, straight from a token that was in place
   * at that moment, or by a request that already held the code or token it came from.
   */
  ghost predicate ComesFromAlive(base: Sys, l: Ledger, minters: map<string, nat>, t: string, code: string)
    requires base.history != []
  {
    exists chain :: ChainFromAlive(base, l, minters, t, code, chain)
  }

  ghost predicate ChainFromAlive(
    base: Sys, l: Ledger, minters: map<string, nat>, t: string, code: string, chain: seq<string>)
    requires base.history != []
  {
    && Path(l, chain, t)
    && var a := chain[|chain| - 1];
       && IsLater(base, l, a) && a in minters
       && var what := l.mints[a].lineage.source;
          OfCode(base, code, what) && (InPlace(base, what) || HeldBy(base, minters[a], what))
  }

  lemma SoundParts(k: Config, sys: Sys)
    requires SysSound(k, sys)
    ensures sys.history != [] && LedgerSound(k, sys.Current(), sys.ledger) && MintsSound(k, sys.ledger)
  {
    hide GrantSound, MintSound, AccessSound;
  }

  lemma HeldIsOnRecord(k: Config, sys: Sys, what: Source)
    requires SysSound(k, sys) && InFlight(sys, what) && what.FromToken?
    ensures what.token in sys.ledger.mints
  {
    var id :| id in sys.flights && Held(sys.flights[id]) == Some(what);
    FlightIsSound(k, sys, id);
    hide SysSound, StateSound;
  }

  /** Something alive, of a code that was used up, is alive of that code. */
  lemma AliveIsOfCode(k: Config, base: Sys, l: Ledger, what: Source, code: string)
    requires SysSound(k, base) && MintsKept(base.ledger, l) && Gone(FromCode(code), base.Current(), base.ledger.mints)
    requires Alive(base, what)
    requires match what
             case FromCode(c) => c == code
             case FromToken(p) => p in l.mints && l.mints[p].lineage.code == code
    ensures AliveOf(base, code, what) && OfCode(base, code, what)
    ensures Usable(base, what) ==> InPlace(base, what)
  {
    hide SysSound, InFlight;
    SoundHistory(k, base);
    if what.FromToken? && InFlight(base, what) {
      HeldIsOnRecord(k, base, what);
    }
  }

  lemma RootIsOfCode(k: Config, base: Sys, l: Ledger, minters: map<string, nat>, t: string, code: string)
    requires SysSound(k, base) && MintsKept(base.ledger, l) && Gone(FromCode(code), base.Current(), base.ledger.mints)
    requires MintsSound(k, l) && t in l.mints && l.mints[t].lineage.code == code && Rooted(base, l, minters, t)
    ensures ComesFromAlive(base, l, minters, t, code)
  {
    SoundHistory(k, base);
    hide SysSound, MintsSound, MintsKept, Alive, AliveOf, Usable, HeldBy, InPlace, OfCode;
    var chain :| RootedBy(base, l, minters, t, chain);
    RootSource(k, base, l, minters, t, chain);
    var a := chain[|chain| - 1];
    AliveIsOfCode(k, base, l, l.mints[a].lineage.source, code);
    hide Path, IsLater;
    assert ChainFromAlive(base, l, minters, t, code, chain);
  }

  lemma RootSource(k: Config, base: Sys, l: Ledger, minters: map<string, nat>, t: string, chain: seq<string>)
    requires base.history != [] && MintsSound(k, l) && RootedBy(base, l, minters, t, chain)
    ensures
      && chain != [] && chain[|chain| - 1] in l.mints && t in l.mints
      && Alive(base, l.mints[chain[|chain| - 1]].lineage.source)
      && match l.mints[chain[|chain| - 1]].lineage.source
         case FromCode(c) => c == l.mints[t].lineage.code
         case FromToken(p) => p in l.mints && l.mints[p].lineage.code == l.mints[t].lineage.code
  {
    hide MintsSound;
    PathKeepsCode(k, l, chain, t, |chain| - 1);
    SourceKeepsCode(k, l, chain[|chain| - 1]);
  }

  lemma Continues(k: Config, base: Sys, acts: seq<Act>)
    requires SysSound(k, base) && RunOk(k, base, acts) && UpToDate(k, base, acts)
    ensures
      var sys := Run(k, base, acts);
      Since(base, sys) && SysSound(k, sys) && MintsKept(base.ledger, sys.ledger)
  {
    SinceItself(k, base);
    hide Since, SysSound, Grows;
    RunKeepsSince(k, base, base, acts);
    RunKeepsSound(k, base, acts);
    GrowsKeepsMints(base.ledger, Run(k, base, acts).ledger);
  }

  /**
   * Once a code is used, every token of it that any continuation mints goes back, rotation by rotation, to a
   * request that already held the code or one of its tokens at that moment, or to a token that was in place.
   */
  lemma LaterTokensComeFromAlive(k: Config, base: Sys, acts: seq<Act>, t: string)
    requires SysSound(k, base) && RunOk(k, base, acts) && UpToDate(k, base, acts)
    requires IsLater(base, Run(k, base, acts).ledger, t)
    requires Gone(FromCode(Run(k, base, acts).ledger.mints[t].lineage.code), base.Current(), base.ledger.mints)
    ensures
      var l := Run(k, base, acts).ledger;
      && base.history != []
      && ComesFromAlive(base, l, Run(k, base, acts).audit.minters, t, l.mints[t].lineage.code)
  {
    hide ComesFromAlive, RowsSince, FlightsSince, MintsKept, Gone, Rooted;
    SoundHistory(k, base);
    Continues(k, base, acts);
    var sys := Run(k, base, acts);
    SoundParts(k, sys);
    hide SysSound, MintsSound, LedgerSound;
    RootIsOfCode(k, base, sys.ledger, sys.audit.minters, t, sys.ledger.mints[t].lineage.code);
  }

  /** Nothing of the code is alive: no token is in place, and no request holds the code or a token of it. */
  ghost predicate Quiet(sys: Sys, code: string)
    requires sys.history != []
  {
    Gone(FromCode(code), sys.Current(), sys.ledger.mints) && forall what :: !AliveOf(sys, code, what)
  }

  lemma LaterAccessOfCode(k: Config, sys: Sys, i: nat)
    requires SysSound(k, sys) && i < |sys.ledger.access| && sys.ledger.access[i].lineage.Some?
    ensures
      var lin := sys.ledger.access[i].lineage.value;
      match lin.source
      case FromCode(c) => c == lin.code
      case FromToken(p) => p in sys.ledger.mints && sys.ledger.mints[p].lineage.code == lin.code
  {
    SoundParts(k, sys);
    hide SysSound, GrantSound, MintSound, MintsSound;
    assert AccessSound(k, sys.Current(), sys.ledger, sys.ledger.access[i]);
  }

  /** Nothing of the code was issued since, neither a refresh token nor an access token. */
  ghost predicate NothingLater(base: Sys, l: Ledger, code: string) {
    && (forall t | IsLater(base, l, t) :: l.mints[t].lineage.code != code)
    && (forall i | |base.ledger.access| <= i < |l.access| && l.access[i].lineage.Some? ::
          l.access[i].lineage.value.code != code)
  }

  /** From then on no continuation issues anything of the code. */
  lemma QuietForGood(k: Config, base: Sys, acts: seq<Act>, code: string)
    requires SysSound(k, base) && RunOk(k, base, acts) && UpToDate(k, base, acts) && Quiet(base, code)
    ensures NothingLater(base, Run(k, base, acts).ledger, code)
  {
    hide SysSound, Quiet, RunOk, UpToDate, Run;
    var l := Run(k, base, acts).ledger;
    forall t | IsLater(base, l, t) ensures l.mints[t].lineage.code != code {
      NoLaterToken(k, base, acts, code, t);
    }
    forall i | |base.ledger.access| <= i < |l.access| && l.access[i].lineage.Some?
      ensures l.access[i].lineage.value.code != code
    {
      NoLaterAccess(k, base, acts, code, i);
    }
  }

  lemma NoLaterAccess(k: Config, base: Sys, acts: seq<Act>, code: string, i: nat)
    requires SysSound(k, base) && RunOk(k, base, acts) && UpToDate(k, base, acts) && Quiet(base, code)
    requires
      var l := Run(k, base, acts).ledger;
      |base.ledger.access| <= i < |l.access| && l.access[i].lineage.Some?
    ensures Run(k, base, acts).ledger.access[i].lineage.value.code != code
  {
    hide SysSound, Quiet, Alive, RunOk, UpToDate, Run, RowsSince, LedgerSince, FlightsSince, MintsKept;
    SoundHistory(k, base);
    Continues(k, base, acts);
    var sys := Run(k, base, acts);
    LaterAccessOfCode(k, sys, i);
    AccessIsAdmissible(base, sys.ledger, sys.audit.minters, i);
    var lin := sys.ledger.access[i].lineage.value;
    if lin.code == code {
      if Alive(base, lin.source) {
        QuietMeans(base, code, lin.source);
        AliveIsOfCode(k, base, sys.ledger, lin.source, code);
      } else {
        NoLaterToken(k, base, acts, code, lin.source.token);
      }
    }
  }

  lemma AccessIsAdmissible(base: Sys, l: Ledger, minters: map<string, nat>, i: nat)
    requires base.history != [] && LedgerSince(base, l, minters)
    requires |base.ledger.access| <= i < |l.access| && l.access[i].lineage.Some?
    ensures Admissible(base, l, l.access[i].lineage.value.source)
  {
    hide Admissible, Rooted;
  }

  lemma QuietMeans(base: Sys, code: string, what: Source)
    requires base.history != [] && Quiet(base, code)
    ensures Gone(FromCode(code), base.Current(), base.ledger.mints) && !AliveOf(base, code, what)
  {
    hide AliveOf, Gone;
  }

  lemma NoLaterToken(k: Config, base: Sys, acts: seq<Act>, code: string, t: string)
    requires SysSound(k, base) && RunOk(k, base, acts) && UpToDate(k, base, acts) && Quiet(base, code)
    requires IsLater(base, Run(k, base, acts).ledger, t)
    ensures Run(k, base, acts).ledger.mints[t].lineage.code != code
  {
    hide SysSound, Gone, AliveOf, RunOk, UpToDate, Run;
    if Run(k, base, acts).ledger.mints[t].lineage.code == code {
      LaterTokensComeFromAlive(k, base, acts, t);
      RootIsAlive(base, Run(k, base, acts).ledger, Run(k, base, acts).audit.minters, t, code);
    }
  }

  lemma RootIsAlive(base: Sys, l: Ledger, minters: map<string, nat>, t: string, code: string)
    requires base.history != [] && ComesFromAlive(base, l, minters, t, code)
    ensures exists what :: AliveOf(base, code, what)
  {
    hide OfCode, InPlace, HeldBy;
    var chain :| ChainFromAlive(base, l, minters, t, code, chain);
    assert AliveOf(base, code, l.mints[chain[|chain| - 1]].lineage.source);
  }

  // ---------------------------------------------------------------- the exact condition

  function RefreshRequest(token: string, clientId: string, secret: string): TokenRequest {
    TokenRequest("refresh_token", None, None, clientId, secret, None, Some(token), None)
  }

  predicate ClientCan(k: Config, sys: Sys, code: string, secret: string)
    requires sys.history != []
  {
    && code in sys.ledger.grants
    && AuthenticateClient(k, sys.Current(), sys.ledger.grants[code].row.clientId, secret).Success?
  }

  lemma TokenOfCode(k: Config, sys: Sys, p: string, code: string)
    requires SysSound(k, sys) && sys.history != [] && OfCode(sys, code, FromToken(p)) && p in sys.Current().tokens
    ensures code in sys.ledger.grants && sys.Current().tokens[p].clientId == sys.ledger.grants[code].row.clientId
  {
    SoundParts(k, sys);
    assert MintSound(k, sys.ledger, p, sys.ledger.mints[p]);
    hide LedgerSound, MintsSound;
  }

  /** A sibling in place can be refreshed by its client. */
  lemma SiblingIsFound(k: Config, sys: Sys, code: string, secret: string, p: string, id: nat, env: Env)
    returns (sys': Sys, acts: seq<Act>)
    requires SysSound(k, sys) && sys.history != [] && ClientCan(k, sys, code, secret)
    requires OfCode(sys, code, FromToken(p)) && p in sys.Current().tokens
    requires id !in sys.begun && env.token !in sys.ledger.mints && env.now <= sys.Current().tokens[p].expiresAt
    ensures RunOk(k, sys, acts) && UpToDate(k, sys, acts) && Run(k, sys, acts) == sys'
    ensures FoundIn(sys, sys', id, FromToken(p))
  {
    hide SysSound, RunOk, UpToDate, Run, FoundIn, OfCode;
    TokenOfCode(k, sys, p, code);
    LoneRequests.EmptyRun(k, sys);
    var r := RefreshRequest(p, sys.Current().tokens[p].clientId, secret);
    sys', acts := Finder(k, sys, [], sys, id, env, r, FromToken(p));
  }

  lemma MintedIsLater(k: Config, base: Sys, sys: Sys, id: nat, token: string, what: Source, code: string)
    requires SysSound(k, sys) && token !in base.ledger.mints && OfCode(base, code, what)
    requires
      && token in sys.ledger.mints && sys.ledger.mints[token].lineage.source == what
      && sys.ledger.mints == base.ledger.mints[token := sys.ledger.mints[token]]
    ensures IsLater(base, sys.ledger, token) && sys.ledger.mints[token].lineage.code == code
  {
    hide SysSound, LedgerSound, MintsSound;
    SoundParts(k, sys);
    SourceKeepsCode(k, sys.ledger, token);
  }

  /** As long as something of the code is alive, there is a continuation that issues a token of the code. */
  lemma AliveCanMint(k: Config, base: Sys, code: string, secret: string, what: Source)
    returns (acts: seq<Act>, token: string)
    requires SysSound(k, base) && base.history != [] && k.EncodeTotal()
    requires ClientCan(k, base, code, secret) && AliveOf(base, code, what)
    ensures RunOk(k, base, acts) && UpToDate(k, base, acts)
    ensures
      var l := Run(k, base, acts).ledger;
      IsLater(base, l, token) && l.mints[token].lineage.code == code
  {
    hide SysSound, Config.EncodeTotal, RunOk, UpToDate, Run, OfCode, ClientCan;
    var n := LongerThanAll(base.ledger.mints.Keys);
    token := seq(n, _ => 'x');
    var now := if InPlace(base, what) then base.Current().tokens[what.token].expiresAt else 0;
    var env := Env(now, "", token, "", "", "", 0);
    if id :| HeldBy(base, id, what) {
      acts := HolderMints(k, base, id, env, what);
      MintedIsLater(k, base, Run(k, base, acts), id, token, what, code);
    } else {
      var id := GreaterThanAll(base.begun);
      var found, finding := SiblingIsFound(k, base, code, secret, what.token, id, env);
      FoundIsSound(k, base, finding);
      var rest := HolderMints(k, found, id, env, what);
      EndOfRun(k, base, finding, found, rest);
      acts := finding + rest;
      MintedIsLater(k, base, Run(k, base, acts), id, token, what, code);
    }
  }

  /**
   * Exactly when a used code is done with: no continuation whatever issues a refresh token or an access token of
   * it if and only if no token of it is in place and no request at work holds the code or a token of it.
   */
  lemma QuietIff(k: Config, base: Sys, code: string, secret: string)
    requires SysSound(k, base) && base.history != [] && k.EncodeTotal()
    requires Gone(FromCode(code), base.Current(), base.ledger.mints) && ClientCan(k, base, code, secret)
    ensures
      Quiet(base, code) <==>
      forall acts | RunOk(k, base, acts) && UpToDate(k, base, acts) :: NothingLater(base, Run(k, base, acts).ledger, code)
  {
    hide SysSound, Config.EncodeTotal, ClientCan, Gone, AliveOf, RunOk, UpToDate, Run;
    if Quiet(base, code) {
      forall acts | RunOk(k, base, acts) && UpToDate(k, base, acts)
        ensures NothingLater(base, Run(k, base, acts).ledger, code)
      {
        QuietForGood(k, base, acts, code);
      }
    } else {
      var what :| AliveOf(base, code, what);
      var acts, token := AliveCanMint(k, base, code, secret, what);
      assert !NothingLater(base, Run(k, base, acts).ledger, code);
    }
  }

  // ---------------------------------------------------------------- revocation

  /** At this step a request deletes a token that is in place. */
  predicate Deletes(k: Config, sys: Sys, id: nat, env: Env, token: string) {
    && sys.history != [] && Enabled(sys, Step(id, |sys.history| - 1, env))
    && sys.flights[id] == DropRevoked(token) && token in sys.Current().tokens
  }

  function AfterDeletion(k: Config, sys: Sys, id: nat, env: Env, token: string): Sys
    requires Deletes(k, sys, id, env, token)
  {
    Next(k, sys, Step(id, |sys.history| - 1, env))
  }

  /**
   * Revocation among overlapping requests. After the step that deletes a live token, no continuation issues
   * anything of its code if and only if, at that step, no sibling is in place and no request holds the code or a
   * token of it; and whatever a continuation does issue goes back to such a sibling, or was minted by such a
   * request.
   */
  lemma RevocationAmongOverlaps(k: Config, before: seq<Act>, id: nat, env: Env, token: string, secret: string)
    requires RunOk(k, INITIAL, before) && UpToDate(k, INITIAL, before)
    requires Deletes(k, Run(k, INITIAL, before), id, env, token)
    ensures
      var sys := Run(k, INITIAL, before);
      var base := AfterDeletion(k, sys, id, env, token);
      && base.history != [] && token in sys.ledger.mints && token !in base.Current().tokens
      && (forall j, what :: HeldBy(base, j, what) <==> HeldBy(sys, j, what))
      && var code := sys.ledger.mints[token].lineage.code;
         && (forall after, t | RunOk(k, base, after) && UpToDate(k, base, after) && OfLater(k, base, after, t, code) ::
               ComesFromAlive(base, Run(k, base, after).ledger, Run(k, base, after).audit.minters, t, code))
         && (k.EncodeTotal() && ClientCan(k, base, code, secret) ==>
               (Quiet(base, code) <==>
                forall after | RunOk(k, base, after) && UpToDate(k, base, after) ::
                  NothingLater(base, Run(k, base, after).ledger, code)))
  {
    var sys := Run(k, INITIAL, before);
    hide RunOk, UpToDate, Run;
    InitialIsSound(k);
    RunKeepsSound(k, INITIAL, before);
    RunFromStartIsAudited(k, before);
    AtDeletion(k, sys, id, env, token, secret);
  }

  /** The continuation has minted this token of the code. */
  ghost predicate OfLater(k: Config, base: Sys, after: seq<Act>, t: string, code: string)
    requires RunOk(k, base, after)
  {
    var l := Run(k, base, after).ledger;
    IsLater(base, l, t) && l.mints[t].lineage.code == code
  }

  lemma AtDeletion(k: Config, sys: Sys, id: nat, env: Env, token: string, secret: string)
    requires SysSound(k, sys) && Audited(sys) && Deletes(k, sys, id, env, token)
    ensures
      var base := AfterDeletion(k, sys, id, env, token);
      && base.history != [] && token in sys.ledger.mints && token !in base.Current().tokens
      && (forall j, what :: HeldBy(base, j, what) <==> HeldBy(sys, j, what))
      && var code := sys.ledger.mints[token].lineage.code;
         && (forall after, t | RunOk(k, base, after) && UpToDate(k, base, after) && OfLater(k, base, after, t, code) ::
               ComesFromAlive(base, Run(k, base, after).ledger, Run(k, base, after).audit.minters, t, code))
         && (k.EncodeTotal() && ClientCan(k, base, code, secret) ==>
               (Quiet(base, code) <==>
                forall after | RunOk(k, base, after) && UpToDate(k, base, after) ::
                  NothingLater(base, Run(k, base, after).ledger, code)))
  {
    var base := AfterDeletion(k, sys, id, env, token);
    var code := sys.ledger.mints[token].lineage.code;
    hide SysSound, Audited, RunOk, UpToDate, Run, ComesFromAlive, HeldBy, Deletes, AfterDeletion, Quiet, Gone;
    hide NothingLater, ClientCan, Config.EncodeTotal;
    DeletionUsesCode(k, sys, id, env, token);
    forall after, t | RunOk(k, base, after) && UpToDate(k, base, after) && OfLater(k, base, after, t, code)
      ensures ComesFromAlive(base, Run(k, base, after).ledger, Run(k, base, after).audit.minters, t, code)
    {
      LaterTokensComeFromAlive(k, base, after, t);
    }
    if k.EncodeTotal() && ClientCan(k, base, code, secret) {
      QuietIff(k, base, code, secret);
    }
  }

  lemma DeletionUsesCode(k: Config, sys: Sys, id: nat, env: Env, token: string)
    requires SysSound(k, sys) && Audited(sys) && Deletes(k, sys, id, env, token)
    ensures
      var base := AfterDeletion(k, sys, id, env, token);
      && base.history != [] && token in sys.ledger.mints && token !in base.Current().tokens && SysSound(k, base)
      && (forall j, what :: HeldBy(base, j, what) <==> HeldBy(sys, j, what))
      && Gone(FromCode(sys.ledger.mints[token].lineage.code), base.Current(), base.ledger.mints)
  {
    hide SysSound, Audited, MintsSound, LedgerSound, HeldBy, Next;
    SoundHistory(k, sys);
    NextKeepsSound(k, sys, Step(id, |sys.history| - 1, env));
    DeletionStep(k, sys, id, env, token);
    SoundParts(k, sys);
    CodeOfMintIsUsed(k, sys, token);
  }

  /**
   * A revocation that misses: from every sound state with a live token that its client can refresh and somebody
   * can revoke, there is a run in which a refresh finds the token, the revocation deletes it and succeeds, and
   * the refresh then obtains a successor of the deleted token.
   */
  lemma RevocationMisses(
    k: Config, sys: Sys, a: nat, b: nat, envA: Env, envB: Env, reqA: TokenRequest, token: string, revoke: Request)
    returns (before: seq<Act>, after: seq<Act>)
    requires SysSound(k, sys) && sys.history != [] && k.EncodeTotal()
    requires a != b && a !in sys.begun && b !in sys.begun
    requires envA.token !in sys.ledger.mints && envB.token !in sys.ledger.mints
    requires LooksUp(k, sys.Current(), envA.now, reqA, FromToken(token))
    requires revoke.Revoke? && revoke.token == token
    requires AuthenticateClient(k, sys.Current(), revoke.clientId, revoke.clientSecret).Success?
    ensures RunOk(k, sys, before) && UpToDate(k, sys, before)
    ensures Deletes(k, Run(k, sys, before), b, envB, token)
    ensures
      var base := AfterDeletion(k, Run(k, sys, before), b, envB, token);
      && RunOk(k, base, after) && UpToDate(k, base, after)
      && b in base.flights && base.flights[b] == Done(Success(Revoked))
      && IsLater(base, Run(k, base, after).ledger, envA.token)
      && Run(k, base, after).ledger.mints[envA.token].lineage.source == FromToken(token)
      && token !in base.Current().tokens
  {
    hide SysSound, LooksUp, RunOk, UpToDate, Run, Held, Config.EncodeTotal, AuthenticateClient, Next;
    var s3;
    s3, before := FoundThenRevoked(k, sys, a, b, envA, envB, reqA, token, revoke);
    FoundIsSound(k, sys, before);
    StepShape(k, s3, b, envB);
    RevokeSteps(k, envB, State(s3.Current(), s3.ledger), revoke);
    var base := AfterDeletion(k, s3, b, envB, token);
    NextKeepsSound(k, s3, Step(b, |s3.history| - 1, envB));
    after := HolderMints(k, base, a, envA, FromToken(token));
  }

  /** The refresh has found the token, and the revocation is about to delete it. */
  lemma FoundThenRevoked(
    k: Config, sys: Sys, a: nat, b: nat, envA: Env, envB: Env, reqA: TokenRequest, token: string, revoke: Request)
    returns (sys': Sys, acts: seq<Act>)
    requires sys.history != [] && a != b && a !in sys.begun && b !in sys.begun
    requires envA.token !in sys.ledger.mints && envB.token !in sys.ledger.mints
    requires LooksUp(k, sys.Current(), envA.now, reqA, FromToken(token))
    requires revoke.Revoke? && revoke.token == token
    requires AuthenticateClient(k, sys.Current(), revoke.clientId, revoke.clientSecret).Success?
    ensures RunOk(k, sys, acts) && UpToDate(k, sys, acts) && Run(k, sys, acts) == sys'
    ensures sys'.history != [] && token in sys'.Current().tokens
    ensures sys'.Current() == sys.Current() && sys'.ledger == sys.ledger
    ensures a in sys'.flights && Held(sys'.flights[a]) == Some(FromToken(token))
    ensures b in sys'.flights && sys'.flights[b] == DropRevoked(token)
  {
    LoneRequests.EmptyRun(k, sys);
    TokenIsThere(k, sys.Current(), envA.now, reqA, token);
    hide LooksUp, RunOk, UpToDate, Run, Held, AuthenticateClient, Next, Advance;
    var s1, a1 := Finder(k, sys, [], sys, a, envA, reqA, FromToken(token));
    BeginStep(k, s1, b, revoke);
    var s2, a2 := LoneRequests.Append(k, sys, s1, a1, Begin(b, revoke));
    StepShape(k, s2, b, envB);
    RevokeSteps(k, envB, State(s2.Current(), s2.ledger), revoke);
    sys', acts := LoneRequests.Append(k, sys, s2, a2, Step(b, |s2.history| - 1, envB));
  }

  lemma TokenIsThere(k: Config, t: Tables, now: int, r: TokenRequest, token: string)
    requires LooksUp(k, t, now, r, FromToken(token))
    ensures token in t.tokens
  {
  }

  lemma RevokeSteps(k: Config, env: Env, s: State, revoke: Request)
    requires revoke.Revoke? && AuthenticateClient(k, s.tables, revoke.clientId, revoke.clientSecret).Success?
    ensures Advance(k, env, s.tables, s, Start(revoke)) == (s, DropRevoked(revoke.token))
    ensures Drop(s, revoke.token).ledger == s.ledger && revoke.token !in Drop(s, revoke.token).tables.tokens
    ensures
      Advance(k, env, s.tables, s, DropRevoked(revoke.token)) == (Drop(s, revoke.token), Done(Success(Revoked)))
  {
    hide AuthenticateClient;
  }

  lemma DeletionStep(k: Config, sys: Sys, id: nat, env: Env, token: string)
    requires sys.history != [] && Enabled(sys, Step(id, |sys.history| - 1, env))
    requires sys.flights[id] == DropRevoked(token)
    ensures
      var base := Next(k, sys, Step(id, |sys.history| - 1, env));
      && base.history != [] && token !in base.Current().tokens
      && base.Current().codes == sys.Current().codes && base.ledger == sys.ledger
      && (forall j, what :: HeldBy(base, j, what) <==> HeldBy(sys, j, what))
  {
    hide Observe;
  }
}
