/** The coordinator, its participants and the network between them, in one world.
  *
  * A participant serves each PUT in several separate steps: start or resume the work item, run
  * the body through the effect store, complete. Anything may happen between two of them: a crash,
  * an expired lease reclaimed by another PUT, a repeated PUT for the same operation, a restart of
  * the process, which forgets the effect store.
  */
module Participant {
  import opened Options
  import opened Rows
  import opened Procedures
  import opened Coordinator
  import opened Soundness
  import opened Invariant
  import opened InvariantSteps
  import opened OpSteps
  import Singular

  /** The identity the work item and the effect store share. */
  datatype OpKey = OpKey(name: string, id: Id)

  /** One execution of a body. */
  datatype Execution = Execution(input: Doc, result: Doc)

  /** What a participant holds for one key: the durable work item and the effect store's entry.
    * `bodies` counts how often a granted handler went through the effect store, `execs` how often
    * the body was really executed, `last` is the latest execution, and `lost` counts the restarts
    * that dropped the effect of an unfinished item. */
  datatype Site = Site(item: Option<Singular.Item>, effect: Option<Doc>, last: Option<Execution>,
                       execs: nat, bodies: nat, lost: nat)
  {
    predicate Done() { item.Some? && item.value.Settled() }
  }

  const UNUSED := Site(None, None, None, 0, 0, 0)

  datatype Phase = Arrived | Holding(token: Id) | MustResume | Ran(token: Id, result: Doc)

  datatype Handler = Handler(key: OpKey, input: Doc, phase: Phase)

  /** A terminal answer that reached, or may yet reach, the coordinator. */
  datatype Success = Success(key: OpKey, result: Doc)

  datatype World = World(db: Db, sites: map<OpKey, Site>, handlers: map<nat, Handler>, answers: set<Success>)
  {
    function At(k: OpKey): Site { if k in sites then sites[k] else UNUSED }
  }

  datatype Move =
    | Drive(c: Cmd)
    | Put(h: nat, key: OpKey, input: Doc)
    | StartItem(h: nat, ts: Ts, expires: Ts, token: Id)
    | ResumeItem(h: nat, ts: Ts, expires: Ts, token: Id)
    | RunBody(h: nat, made: Doc)
    | CompleteItem(h: nat, ts: Ts)
    | Drop(h: nat)
    | Get(key: OpKey)
    | Restart(keys: set<OpKey>)

  // ---------------------------------------------------------------- the moves

  /** A driver settles a participant operation only with an answer it was given. */
  predicate HasAnswer(w: World, c: Cmd) {
    c.OperationSettle? && c.wf in w.db && c.pos in w.db[c.wf].ops && w.db[c.wf].ops[c.pos].kind.Participant? ==>
      Success(OpKey(w.db[c.wf].ops[c.pos].name, w.db[c.wf].ops[c.pos].id), c.result) in w.answers
  }

  function WithSite(w: World, k: OpKey, s: Site): World { w.(sites := w.sites[k := s]) }

  function WithPhase(w: World, h: nat, p: Phase): World
    requires h in w.handlers
  {
    w.(handlers := w.handlers[h := w.handlers[h].(phase := p)])
  }

  function Finished(w: World, h: nat): World { w.(handlers := w.handlers - {h}) }

  /** The recorded answer of a settled item. */
  function Report(w: World, k: OpKey, r: Singular.Reply): World {
    if r.Terminal? && r.kind.Success? then w.(answers := w.answers + {Success(k, r.payload)}) else w
  }

  /** The latest history row of the item. */
  function Head(s: Site): Option<Singular.Entry> {
    if s.item.Some? && s.item.value.head in s.item.value.history
    then Some(s.item.value.history[s.item.value.head]) else None
  }

  function BoundInput(s: Site): Option<Doc> {
    if Head(s).Some? then Some(Head(s).value.meta) else None
  }

  function DoStartItem(w: World, m: Move): World
    requires m.StartItem? && m.h in w.handlers && w.handlers[m.h].phase.Arrived?
  {
    var hd := w.handlers[m.h];
    var s := w.At(hd.key);
    var a := Singular.Handle(s.item, Singular.Start(hd.input, m.ts, m.expires, m.token));
    var w1 := WithSite(w, hd.key, s.(item := a.item));
    if a.reply.Granted? then WithPhase(w1, m.h, Holding(m.token))
    else if a.reply.Exists? && BoundInput(s) == Some(hd.input) then WithPhase(w1, m.h, MustResume)
    else Finished(w1, m.h)
  }

  function DoResumeItem(w: World, m: Move): World
    requires m.ResumeItem? && m.h in w.handlers && w.handlers[m.h].phase.MustResume?
  {
    var hd := w.handlers[m.h];
    var s := w.At(hd.key);
    var a := Singular.Handle(s.item, Singular.Reclaim(m.ts, m.expires, m.token));
    var w1 := Report(WithSite(w, hd.key, s.(item := a.item)), hd.key, a.reply);
    if a.reply.Regranted? then WithPhase(w1, m.h, Holding(m.token)) else Finished(w1, m.h)
  }

  /** The effect store: look up the key, or execute once and remember. */
  function RunIdempotent(s: Site, input: Doc, made: Doc): Site {
    if s.effect.Some? then s.(bodies := s.bodies + 1)
    else s.(effect := Some(made), last := Some(Execution(input, made)), execs := s.execs + 1, bodies := s.bodies + 1)
  }

  function DoRunBody(w: World, m: Move): World
    requires m.RunBody? && m.h in w.handlers && w.handlers[m.h].phase.Holding?
  {
    var hd := w.handlers[m.h];
    var s := RunIdempotent(w.At(hd.key), hd.input, m.made);
    WithPhase(WithSite(w, hd.key, s), m.h, Ran(hd.phase.token, s.effect.value))
  }

  function DoCompleteItem(w: World, m: Move): World
    requires m.CompleteItem? && m.h in w.handlers && w.handlers[m.h].phase.Ran?
  {
    var hd := w.handlers[m.h];
    var s := w.At(hd.key);
    var a := Singular.Handle(s.item, Singular.Complete(hd.phase.token, m.ts, hd.phase.result));
    Finished(Report(WithSite(w, hd.key, s.(item := a.item)), hd.key, a.reply), m.h)
  }

  /** The process serving these keys restarts: its handlers and its effect store are gone. */
  function Lose(s: Site): Site {
    s.(effect := None, lost := s.lost + (if s.effect.Some? && !s.Done() then 1 else 0))
  }

  function DoRestart(w: World, keys: set<OpKey>): World {
    w.(sites := map k | k in w.sites :: if k in keys then Lose(w.sites[k]) else w.sites[k],
       handlers := map h | h in w.handlers && w.handlers[h].key !in keys :: w.handlers[h])
  }

  function Step(w: World, m: Move): World {
    match m
    case Drive(c) => if HasAnswer(w, c) then w.(db := Apply(w.db, c).db) else w
    case Put(h, k, input) => if h in w.handlers then w else w.(handlers := w.handlers[h := Handler(k, input, Arrived)])
    case StartItem(h, _, _, _) => if h in w.handlers && w.handlers[h].phase.Arrived? then DoStartItem(w, m) else w
    case ResumeItem(h, _, _, _) => if h in w.handlers && w.handlers[h].phase.MustResume? then DoResumeItem(w, m) else w
    case RunBody(h, _) => if h in w.handlers && w.handlers[h].phase.Holding? then DoRunBody(w, m) else w
    case CompleteItem(h, _) => if h in w.handlers && w.handlers[h].phase.Ran? then DoCompleteItem(w, m) else w
    case Drop(h) => Finished(w, h)
    case Get(k) => Report(w, k, Singular.Handle(w.At(k).item, Singular.Look).reply)
    case Restart(keys) => DoRestart(w, keys)
  }

  function RunWorld(w: World, ms: seq<Move>): World
    decreases |ms|
  {
    if ms == [] then w else RunWorld(Step(w, ms[0]), ms[1..])
  }

  const DAWN := World(map[], map[], map[], {})

  // ---------------------------------------------------------------- the invariant

  /** One key: executed once more than it was lost, if at all, always on the input the item is bound
    * to; a settled item carries the result of the latest execution. */
  ghost predicate SiteOk(s: Site) {
    && Singular.Coherent(s.item)
    && s.execs == s.lost + (if s.effect.Some? || s.Done() then 1 else 0)
    && (s.execs > 0 ==> s.last.Some? && BoundInput(s) == Some(s.last.value.input))
    && (s.effect.Some? ==> s.last.Some? && s.effect == Some(s.last.value.result))
    && (s.Done() ==> s.last.Some? && Head(s).Some? && Head(s).value.kind.Success?
                     && Head(s).value.payload == s.last.value.result)
  }

  ghost predicate HandlerOk(hd: Handler, s: Site) {
    match hd.phase
    case Arrived => true
    case MustResume => BoundInput(s) == Some(hd.input)
    case Holding(_) => BoundInput(s) == Some(hd.input) && (s.Done() ==> s.effect.Some?)
    case Ran(_, result) => BoundInput(s) == Some(hd.input) && s.effect == Some(result)
  }

  ghost predicate AnswerOk(a: Success, s: Site) {
    s.Done() && Head(s).Some? && Head(s).value.payload == a.result
  }

  ghost predicate SitesOk(w: World) {
    && (forall k :: k in w.sites ==> SiteOk(w.sites[k]))
    && (forall h :: h in w.handlers ==> HandlerOk(w.handlers[h], w.At(w.handlers[h].key)))
    && (forall a :: a in w.answers ==> AnswerOk(a, w.At(a.key)))
  }

  /** Every settled participant operation was settled with an answer from its participant. */
  ghost predicate SettledByAnswers(w: World) {
    forall id, p: nat :: id in w.db && w.db[id].IsSettled(p) && w.db[id].ops[p].kind.Participant? ==>
      Success(OpKey(w.db[id].ops[p].name, w.db[id].ops[p].id), w.db[id].ops[p].result.value) in w.answers
  }

  /** What may become of a site from one moment to the next. */
  ghost predicate SiteGrows(a: Site, b: Site) {
    && (a.effect.Some? ==> b.effect == a.effect)
    && (BoundInput(a).Some? ==> BoundInput(b) == BoundInput(a))
    && (a.Done() ==> b.item == a.item)
    && (b.Done() && !a.Done() ==> b.effect.Some?)
  }

  lemma HandleBinds(s: Site, r: Singular.Request)
    requires Singular.Coherent(s.item)
    ensures BoundInput(s).Some? ==> BoundInput(s.(item := Singular.Handle(s.item, r).item)) == BoundInput(s)
    ensures s.Done() ==> Singular.Handle(s.item, r).item == s.item
    ensures !r.Complete? && !r.Fail? && !s.Done() ==> !s.(item := Singular.Handle(s.item, r).item).Done()
  {}

  /** Replacing a site by one that is sound and grown from it keeps every handler and answer sound. */
  lemma SiteReplaced(w: World, k: OpKey, s: Site)
    requires SitesOk(w) && SiteOk(s) && SiteGrows(w.At(k), s)
    ensures SitesOk(WithSite(w, k, s))
  {
    hide SiteOk, BoundInput;
    var n := WithSite(w, k, s);
    assert forall q :: n.At(q) == if q == k then s else w.At(q);
  }

  lemma PhaseReplaced(w: World, h: nat, p: Phase)
    requires SitesOk(w) && h in w.handlers && HandlerOk(w.handlers[h].(phase := p), w.At(w.handlers[h].key))
    ensures SitesOk(WithPhase(w, h, p))
  {
    hide SiteOk, AnswerOk;
    var n := WithPhase(w, h, p);
    assert forall k :: n.At(k) == w.At(k);
  }

  lemma ReportOk(w: World, k: OpKey, r: Singular.Reply)
    requires SitesOk(w) && (r.Terminal? && r.kind.Success? ==> AnswerOk(Success(k, r.payload), w.At(k)))
    ensures SitesOk(Report(w, k, r))
  {
    hide SiteOk, HandlerOk, AnswerOk;
    assert forall q :: Report(w, k, r).At(q) == w.At(q);
  }

  lemma FinishedOk(w: World, h: nat)
    requires SitesOk(w)
    ensures SitesOk(Finished(w, h))
  {
    hide SiteOk, HandlerOk, AnswerOk;
    assert forall q :: Finished(w, h).At(q) == w.At(q);
  }

  // ---------------------------------------------------------------- every move keeps it

  lemma ItemStep(s: Site, r: Singular.Request)
    requires SiteOk(s) && !r.Complete? && !r.Fail?
    ensures var n := s.(item := Singular.Handle(s.item, r).item); SiteOk(n) && SiteGrows(s, n)
  {
    Singular.HandleCoherent(s.item, r);
    HandleBinds(s, r);
  }

  lemma StartOk(w: World, m: Move)
    requires SitesOk(w) && m.StartItem? && m.h in w.handlers && w.handlers[m.h].phase.Arrived?
    ensures SitesOk(DoStartItem(w, m))
  {
    var hd := w.handlers[m.h];
    var s := w.At(hd.key);
    assert SiteOk(s);
    var r := Singular.Start(hd.input, m.ts, m.expires, m.token);
    var a := Singular.Handle(s.item, r);
    ItemStep(s, r);
    HandleBinds(s, r);
    var n := s.(item := a.item);
    SiteReplaced(w, hd.key, n);
    var w1 := WithSite(w, hd.key, n);
    assert w1.At(hd.key) == n;
    assert a.reply.Granted? ==> BoundInput(n) == Some(hd.input);
    hide SiteOk, SitesOk, SiteGrows;
    if a.reply.Granted? {
      PhaseReplaced(w1, m.h, Holding(m.token));
    } else if a.reply.Exists? && BoundInput(s) == Some(hd.input) {
      PhaseReplaced(w1, m.h, MustResume);
    } else {
      FinishedOk(w1, m.h);
    }
  }

  lemma ResumeOk(w: World, m: Move)
    requires SitesOk(w) && m.ResumeItem? && m.h in w.handlers && w.handlers[m.h].phase.MustResume?
    ensures SitesOk(DoResumeItem(w, m))
  {
    var hd := w.handlers[m.h];
    var s := w.At(hd.key);
    assert SiteOk(s) && HandlerOk(hd, s);
    var r := Singular.Reclaim(m.ts, m.expires, m.token);
    var a := Singular.Handle(s.item, r);
    ItemStep(s, r);
    HandleBinds(s, r);
    var n := s.(item := a.item);
    SiteReplaced(w, hd.key, n);
    var w1 := WithSite(w, hd.key, n);
    assert w1.At(hd.key) == n;
    assert a.reply.Terminal? ==> AnswerOk(Success(hd.key, a.reply.payload), n);
    hide SiteOk, SitesOk, SiteGrows, AnswerOk;
    ReportOk(w1, hd.key, a.reply);
    var w2 := Report(w1, hd.key, a.reply);
    assert w2.At(hd.key) == n;
    if a.reply.Regranted? { PhaseReplaced(w2, m.h, Holding(m.token)); } else { FinishedOk(w2, m.h); }
  }

  lemma BodyOk(w: World, m: Move)
    requires SitesOk(w) && m.RunBody? && m.h in w.handlers && w.handlers[m.h].phase.Holding?
    ensures SitesOk(DoRunBody(w, m))
  {
    var hd := w.handlers[m.h];
    var s := w.At(hd.key);
    assert SiteOk(s) && HandlerOk(hd, s);
    var n := RunIdempotent(s, hd.input, m.made);
    assert SiteOk(n) && SiteGrows(s, n);
    SiteReplaced(w, hd.key, n);
    var w1 := WithSite(w, hd.key, n);
    assert w1.At(hd.key) == n;
    hide SiteOk, SitesOk, SiteGrows;
    PhaseReplaced(w1, m.h, Ran(hd.phase.token, n.effect.value));
  }

  lemma CompleteOk(w: World, m: Move)
    requires SitesOk(w) && m.CompleteItem? && m.h in w.handlers && w.handlers[m.h].phase.Ran?
    ensures SitesOk(DoCompleteItem(w, m))
  {
    var hd := w.handlers[m.h];
    var s := w.At(hd.key);
    assert SiteOk(s) && HandlerOk(hd, s);
    var r := Singular.Complete(hd.phase.token, m.ts, hd.phase.result);
    var a := Singular.Handle(s.item, r);
    Singular.HandleCoherent(s.item, r);
    HandleBinds(s, r);
    var n := s.(item := a.item);
    assert SiteOk(n) && SiteGrows(s, n);
    SiteReplaced(w, hd.key, n);
    var w1 := WithSite(w, hd.key, n);
    assert w1.At(hd.key) == n;
    assert a.reply.Terminal? && a.reply.kind.Success? ==> AnswerOk(Success(hd.key, a.reply.payload), n);
    hide SiteOk, SitesOk, SiteGrows, AnswerOk;
    ReportOk(w1, hd.key, a.reply);
    FinishedOk(Report(w1, hd.key, a.reply), m.h);
  }

  lemma GetOk(w: World, k: OpKey)
    requires SitesOk(w)
    ensures SitesOk(Step(w, Get(k)))
  {
    var s := w.At(k);
    assert SiteOk(s);
    var r := Singular.Handle(s.item, Singular.Look).reply;
    assert r.Terminal? && r.kind.Success? ==> AnswerOk(Success(k, r.payload), s);
    hide SiteOk, SitesOk, AnswerOk;
    ReportOk(w, k, r);
  }

  lemma LoseOk(s: Site)
    requires SiteOk(s)
    ensures SiteOk(Lose(s))
    ensures forall a :: AnswerOk(a, s) ==> AnswerOk(a, Lose(s))
  {}

  lemma RestartOk(w: World, keys: set<OpKey>)
    requires SitesOk(w)
    ensures SitesOk(DoRestart(w, keys))
  {
    hide SiteOk, AnswerOk, HandlerOk, Lose;
    var n := DoRestart(w, keys);
    assert forall k :: n.At(k) == if k in keys && k in w.sites then Lose(w.At(k)) else w.At(k);
    forall k | k in w.sites ensures SiteOk(Lose(w.sites[k])) { LoseOk(w.sites[k]); }
    forall a | a in n.answers ensures AnswerOk(a, n.At(a.key)) { if a.key in w.sites { LoseOk(w.sites[a.key]); } }
  }

  lemma StepSitesOk(w: World, m: Move)
    requires SitesOk(w)
    ensures SitesOk(Step(w, m))
  {
    match m
    case Drive(c) =>
      hide SiteOk, HandlerOk, AnswerOk, Apply, HasAnswer;
      assert forall q :: Step(w, m).At(q) == w.At(q);
    case Put(h, k, input) =>
      hide SiteOk, AnswerOk;
      assert forall q :: Step(w, m).At(q) == w.At(q);
    case StartItem(h, _, _, _) => if h in w.handlers && w.handlers[h].phase.Arrived? { StartOk(w, m); }
    case ResumeItem(h, _, _, _) => if h in w.handlers && w.handlers[h].phase.MustResume? { ResumeOk(w, m); }
    case RunBody(h, _) => if h in w.handlers && w.handlers[h].phase.Holding? { BodyOk(w, m); }
    case CompleteItem(h, _) => if h in w.handlers && w.handlers[h].phase.Ran? { CompleteOk(w, m); }
    case Drop(h) => FinishedOk(w, h);
    case Get(k) => GetOk(w, k);
    case Restart(keys) => RestartOk(w, keys);
  }

  // ---------------------------------------------------------------- settled only by answers

  lemma AnswersGrow(w: World, m: Move)
    ensures w.answers <= Step(w, m).answers
    ensures !m.Drive? ==> Step(w, m).db == w.db
  {
    hide Apply, HasAnswer;
  }

  /** Among all commands only a settle stores an operation's result: a settled row was settled
    * before, or this settle stored its result. */
  predicate SettledBy(a: Operation, b: Operation, c: Cmd, id: Id, p: nat) {
    b.name == a.name && b.id == a.id && b.kind == a.kind
    && (b.result == a.result || (c.OperationSettle? && c.wf == id && c.pos == p && b.result == Some(c.result)))
  }

  lemma LocalNewlySettled(w: Workflow, c: Cmd, p: nat)
    requires IsLocal(c) && p in LocalStep(w, c).next.ops && LocalStep(w, c).next.IsSettled(p)
    ensures p in w.ops && SettledBy(w.ops[p], LocalStep(w, c).next.ops[p], c, c.wf, p)
  {
    hide LocalStep, Charge, Overdue, Escalate, Observe, Exhausted, DoOperationRequest;
    LocalOpChange(w, c, p);
  }

  lemma CallNewlySettled(db: Db, c: Cmd, id: Id, p: nat)
    requires !IsLocal(c) && id in Apply(db, c).db && Apply(db, c).db[id].IsSettled(p)
    ensures id in db && p in db[id].ops && Apply(db, c).db[id].ops[p] == db[id].ops[p]
  {
    hide Malformed, TopOf, OpIdTaken, InLineage, SameSubmission, Holds, OrderGuard;
  }

  lemma NewlySettled(db: Db, c: Cmd, id: Id, p: nat)
    requires id in Apply(db, c).db && Apply(db, c).db[id].IsSettled(p)
    ensures id in db && p in db[id].ops && SettledBy(db[id].ops[p], Apply(db, c).db[id].ops[p], c, id, p)
  {
    hide LocalStep, Malformed, OpIdTaken, DoCreate, DoCallSubmit, DoChildReopen, DoChildSettle, DoNotify;
    if IsLocal(c) {
      if c.wf == id && id in db && Apply(db, c).db[id] != db[id] { LocalNewlySettled(db[id], c, p); }
    } else {
      hide Apply;
      CallNewlySettled(db, c, id, p);
    }
  }

  lemma DriveSettles(w: World, maxDepth: nat, c: Cmd)
    requires Inv(w.db, maxDepth) && Bounded(c, maxDepth) && SettledByAnswers(w)
    ensures SettledByAnswers(Step(w, Drive(c)))
  {
    hide Inv, Apply;
    var n := Step(w, Drive(c));
    forall id, p: nat | id in n.db && n.db[id].IsSettled(p) && n.db[id].ops[p].kind.Participant?
      ensures Success(OpKey(n.db[id].ops[p].name, n.db[id].ops[p].id), n.db[id].ops[p].result.value) in n.answers
    {
      if n.db != w.db {
        NewlySettled(w.db, c, id, p);
        if n.db[id].ops[p].result == w.db[id].ops[p].result { assert w.db[id].IsSettled(p); }
      }
    }
  }

  predicate Moderate(m: Move, maxDepth: nat) { m.Drive? ==> Bounded(m.c, maxDepth) }

  lemma {:induction false} WorldInv(w: World, maxDepth: nat, ms: seq<Move>)
    requires Inv(w.db, maxDepth) && SitesOk(w) && SettledByAnswers(w)
    requires forall i :: 0 <= i < |ms| ==> Moderate(ms[i], maxDepth)
    ensures var n := RunWorld(w, ms); Inv(n.db, maxDepth) && SitesOk(n) && SettledByAnswers(n)
    decreases |ms|
  {
    hide Inv, SitesOk, Apply, DoStartItem, DoResumeItem, DoRunBody, DoCompleteItem, Report, HasAnswer;
    if ms != [] {
      var n := Step(w, ms[0]);
      StepSitesOk(w, ms[0]);
      AnswersGrow(w, ms[0]);
      if ms[0].Drive? {
        ApplyInv(w.db, maxDepth, ms[0].c);
        DriveSettles(w, maxDepth, ms[0].c);
      }
      hide Step;
      WorldInv(n, maxDepth, ms[1..]);
    }
  }

  // ---------------------------------------------------------------- the theorems

  /** In every run of the whole system, under any number of drivers and PUTs, lost answers,
    * crashes between any two participant steps, expired and reclaimed leases, and restarts that
    * empty an effect store: a body is executed at most once more than an unfinished effect was lost,
    * so at most once exactly until a lost effect is made again,
    * always on the input bound to the operation, and for every operation the coordinator holds as
    * settled exactly that often, the latest execution giving the stored result. */
  lemma ExactlyOnce(maxDepth: nat, ms: seq<Move>, k: OpKey, id: Id, p: nat)
    requires forall i :: 0 <= i < |ms| ==> Moderate(ms[i], maxDepth)
    ensures var n := RunWorld(DAWN, ms);
            n.At(k).execs <= 1 + n.At(k).lost
            && (n.At(k).execs <= 1 <==>
                n.At(k).lost == 0 || (n.At(k).lost == 1 && n.At(k).effect.None? && !n.At(k).Done()))
            && (n.At(k).execs > 0 ==> n.At(k).last.Some? && Some(n.At(k).last.value.input) == BoundInput(n.At(k)))
            && (id in n.db && n.db[id].IsSettled(p) && n.db[id].ops[p].kind.Participant? ==>
                  var s := n.At(OpKey(n.db[id].ops[p].name, n.db[id].ops[p].id));
                  s.Done() && s.execs == 1 + s.lost
                  && s.last.Some? && Some(s.last.value.result) == n.db[id].ops[p].result)
  {
    hide Inv, RunWorld;
    EmptyInv(maxDepth);
    WorldInv(DAWN, maxDepth, ms);
    var n := RunWorld(DAWN, ms);
    assert SiteOk(n.At(k));
    if id in n.db && n.db[id].IsSettled(p) && n.db[id].ops[p].kind.Participant? {
      var a := Success(OpKey(n.db[id].ops[p].name, n.db[id].ops[p].id), n.db[id].ops[p].result.value);
      assert AnswerOk(a, n.At(a.key));
      assert SiteOk(n.At(a.key));
    }
  }

  /** The restarts of a run that drop the effect of an unfinished item under this key. */
  function Losses(w: World, ms: seq<Move>, k: OpKey): nat
    decreases |ms|
  {
    if ms == [] then 0
    else
      var here := if ms[0].Restart? && k in ms[0].keys && w.At(k).effect.Some? && !w.At(k).Done() then 1 else 0;
      here + Losses(Step(w, ms[0]), ms[1..], k)
  }

  lemma LossesAreCounted(w: World, ms: seq<Move>, k: OpKey)
    ensures RunWorld(w, ms).At(k).lost == w.At(k).lost + Losses(w, ms, k)
    decreases |ms|
  {
    if ms != [] {
      StepLoses(w, ms[0], k);
      hide Step;
      LossesAreCounted(Step(w, ms[0]), ms[1..], k);
    }
  }

  lemma StepLoses(w: World, m: Move, k: OpKey)
    ensures Step(w, m).At(k).lost
            == w.At(k).lost + (if m.Restart? && k in m.keys && w.At(k).effect.Some? && !w.At(k).Done() then 1 else 0)
  {
    hide Apply, HasAnswer, Singular.Handle;
  }

  /** A settled operation was executed exactly once if and only if no restart came between an
    * execution and the completion of its item. */
  lemma OnceExactlyWithoutLoss(maxDepth: nat, ms: seq<Move>, id: Id, p: nat)
    requires forall i :: 0 <= i < |ms| ==> Moderate(ms[i], maxDepth)
    ensures var n := RunWorld(DAWN, ms);
            id in n.db && n.db[id].IsSettled(p) && n.db[id].ops[p].kind.Participant? ==>
              var k := OpKey(n.db[id].ops[p].name, n.db[id].ops[p].id);
              n.At(k).execs >= 1 && (n.At(k).execs == 1 <==> Losses(DAWN, ms, k) == 0)
  {
    hide Inv, RunWorld, Losses;
    var n := RunWorld(DAWN, ms);
    if id in n.db && n.db[id].IsSettled(p) && n.db[id].ops[p].kind.Participant? {
      var k := OpKey(n.db[id].ops[p].name, n.db[id].ops[p].id);
      ExactlyOnce(maxDepth, ms, k, id, p);
      LossesAreCounted(DAWN, ms, k);
    }
  }

  /** The first holder claims and executes. */
  lemma FirstHolderExecutes(k: OpKey, input: Doc)
    ensures Step(Step(Step(DAWN, Put(1, k, input)), StartItem(1, 0, 10, 7)), RunBody(1, "r1")) == Executed(k, input)
  {
    hide Apply, HasAnswer, Report;
    var w1 := DAWN.(handlers := map[1 := Handler(k, input, Arrived)]);
    assert Step(DAWN, Put(1, k, input)) == w1;
    var w2 := World(map[], map[k := Site(Some(FirstLease(input)), None, None, 0, 0, 0)],
                    map[1 := Handler(k, input, Holding(7))], {});
    assert Step(w1, StartItem(1, 0, 10, 7)) == w2;
  }

  /** Then either its handler crashes before completing, or its whole process restarts. */
  lemma FirstHolderGone(k: OpKey, input: Doc)
    ensures Step(Executed(k, input), Drop(1)) == Crashed(k, input)
    ensures Step(Executed(k, input), Restart({k})) == Restarted(k, input)
  {
    hide Apply, HasAnswer, Report;
  }

  function Executed(k: OpKey, input: Doc): World {
    Crashed(k, input).(handlers := map[1 := Handler(k, input, Ran(7, "r1"))])
  }

  function FirstLease(input: Doc): Singular.Item {
    Singular.Item(0, Some(7), None,
                  map[0 := Singular.Entry(Singular.Grant, 7, Some(10), input, Singular.EMPTY, Singular.EMPTY)])
  }

  function Crashed(k: OpKey, input: Doc): World {
    World(map[], map[k := Site(Some(FirstLease(input)), Some("r1"), Some(Execution(input, "r1")), 1, 1, 0)], map[], {})
  }

  /** A second PUT finds the item, reclaims the expired lease and goes through the body again. */
  lemma SecondHolderRuns(k: OpKey, input: Doc)
    ensures var w := Step(Step(Step(Step(Crashed(k, input), Put(2, k, input)), StartItem(2, 11, 20, 7)),
                                    ResumeItem(2, 12, 20, 8)), RunBody(2, "r2"));
            w.At(k).bodies == 2 && w.At(k).execs == 1 && w.At(k).effect == Some("r1")
  {
    hide Apply, HasAnswer;
    var w5 := Crashed(k, input).(handlers := map[2 := Handler(k, input, Arrived)]);
    assert Step(Crashed(k, input), Put(2, k, input)) == w5;
    var w6 := Crashed(k, input).(handlers := map[2 := Handler(k, input, MustResume)]);
    assert Step(w5, StartItem(2, 11, 20, 7)) == w6;
    var w7 := Step(w6, ResumeItem(2, 12, 20, 8));
    assert w7.handlers == map[2 := Handler(k, input, Holding(8))];
    assert w7.At(k).effect == Some("r1") && w7.At(k).execs == 1 && w7.At(k).bodies == 1;
  }

  /** The lease does not give this by itself: after a crash an expired lease is granted again and
    * the second holder goes through the body too. Only the effect store keeps it from executing. */
  lemma LeaseAloneIsNotEnough(k: OpKey, input: Doc)
    ensures var ms := [Put(1, k, input), StartItem(1, 0, 10, 7), RunBody(1, "r1"), Drop(1),
                       Put(2, k, input), StartItem(2, 11, 20, 7), ResumeItem(2, 12, 20, 8), RunBody(2, "r2")];
            var s := RunWorld(DAWN, ms).At(k);
            s.bodies == 2 && s.execs == 1 && s.effect == Some("r1")
  {
    hide Step;
    var ms := [Put(1, k, input), StartItem(1, 0, 10, 7), RunBody(1, "r1"), Drop(1),
               Put(2, k, input), StartItem(2, 11, 20, 7), ResumeItem(2, 12, 20, 8), RunBody(2, "r2")];
    FirstHolderExecutes(k, input);
    FirstHolderGone(k, input);
    SecondHolderRuns(k, input);
    RunEight(DAWN, ms);
  }

  function Restarted(k: OpKey, input: Doc): World {
    World(map[], map[k := Site(Some(FirstLease(input)), None, Some(Execution(input, "r1")), 1, 1, 1)], map[], {})
  }

  lemma SecondHolderExecutes(k: OpKey, input: Doc)
    ensures var w := Step(Step(Step(Step(Restarted(k, input), Put(2, k, input)), StartItem(2, 11, 20, 7)),
                                    ResumeItem(2, 12, 20, 8)), RunBody(2, "r2"));
            w.At(k).execs == 2 && w.At(k).effect == Some("r2")
  {
    hide Apply, HasAnswer;
    var w5 := Restarted(k, input).(handlers := map[2 := Handler(k, input, Arrived)]);
    assert Step(Restarted(k, input), Put(2, k, input)) == w5;
    var w6 := Restarted(k, input).(handlers := map[2 := Handler(k, input, MustResume)]);
    assert Step(w5, StartItem(2, 11, 20, 7)) == w6;
    var w7 := Step(w6, ResumeItem(2, 12, 20, 8));
    assert w7.handlers == map[2 := Handler(k, input, Holding(8))];
    assert w7.At(k).effect == None && w7.At(k).execs == 1;
  }

  /** A restart in that window does make the body execute again. */
  lemma RestartExecutesAgain(k: OpKey, input: Doc)
    ensures var ms := [Put(1, k, input), StartItem(1, 0, 10, 7), RunBody(1, "r1"), Restart({k}),
                       Put(2, k, input), StartItem(2, 11, 20, 7), ResumeItem(2, 12, 20, 8), RunBody(2, "r2")];
            RunWorld(DAWN, ms).At(k).execs == 2
  {
    hide Step;
    var ms := [Put(1, k, input), StartItem(1, 0, 10, 7), RunBody(1, "r1"), Restart({k}),
               Put(2, k, input), StartItem(2, 11, 20, 7), ResumeItem(2, 12, 20, 8), RunBody(2, "r2")];
    FirstHolderExecutes(k, input);
    FirstHolderGone(k, input);
    SecondHolderExecutes(k, input);
    RunEight(DAWN, ms);
  }

  lemma RunEight(w: World, ms: seq<Move>)
    requires |ms| == 8
    ensures RunWorld(w, ms)
            == Step(Step(Step(Step(Step(Step(Step(Step(w, ms[0]), ms[1]), ms[2]), ms[3]), ms[4]), ms[5]), ms[6]), ms[7])
  {
    hide Step;
    RunFour(w, ms[..4], ms[4..]);
    assert ms == ms[..4] + ms[4..];
    RunFour(Step(Step(Step(Step(w, ms[0]), ms[1]), ms[2]), ms[3]), ms[4..], []);
    assert ms[4..] == ms[4..] + [];
  }

  lemma RunFour(w: World, a: seq<Move>, b: seq<Move>)
    requires |a| == 4
    ensures RunWorld(w, a + b) == RunWorld(Step(Step(Step(Step(w, a[0]), a[1]), a[2]), a[3]), b)
  {
    hide Step;
    var s := a + b;
    assert s[1..][1..][1..][1..] == b;
    assert s[0] == a[0] && s[1..][0] == a[1] && s[1..][1..][0] == a[2] && s[1..][1..][1..][0] == a[3];
    var w1 := Step(w, a[0]);
    assert RunWorld(w, s) == RunWorld(w1, s[1..]);
    var w2 := Step(w1, a[1]);
    assert RunWorld(w1, s[1..]) == RunWorld(w2, s[1..][1..]);
    var w3 := Step(w2, a[2]);
    assert RunWorld(w2, s[1..][1..]) == RunWorld(w3, s[1..][1..][1..]);
  }
}
