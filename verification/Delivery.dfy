/** From the coordinator's rows to the participant's bodies and back: what is executed is what was
  * stored, and an answer can always be had. */
module Delivery {
  import opened Options
  import opened Rows
  import Procedures
  import opened Coordinator
  import opened Evolution
  import opened Invariant
  import opened InvariantSteps
  import opened Participant
  import Singular

  // ---------------------------------------------------------------- inputs

  /** A participant operation of this key is stored with this input. */
  ghost predicate StoredInput(db: Db, k: OpKey, input: Doc) {
    exists id, p: nat :: id in db && p in db[id].ops && db[id].ops[p].kind.Participant?
                         && OpKey(db[id].ops[p].name, db[id].ops[p].id) == k && db[id].ops[p].input == input
  }

  /** Every PUT under this key is sent by a driver that has the operation's row in hand. */
  ghost predicate PutsFromRows(w: World, ms: seq<Move>, k: OpKey)
    decreases |ms|
  {
    ms == []
    || ((ms[0].Put? && ms[0].key == k ==> StoredInput(w.db, k, ms[0].input))
        && PutsFromRows(Step(w, ms[0]), ms[1..], k))
  }

  /** Everything in flight for the key carries a stored input. */
  ghost predicate InputsStored(w: World, k: OpKey) {
    && (BoundInput(w.At(k)).Some? ==> StoredInput(w.db, k, BoundInput(w.At(k)).value))
    && (forall h :: h in w.handlers && w.handlers[h].key == k ==> StoredInput(w.db, k, w.handlers[h].input))
  }

  lemma StoredStays(a: Db, b: Db, k: OpKey, input: Doc)
    requires DbGrows(a, b) && StoredInput(a, k, input)
    ensures StoredInput(b, k, input)
  {
    var id, p: nat :| id in a && p in a[id].ops && a[id].ops[p].kind.Participant?
                      && OpKey(a[id].ops[p].name, a[id].ops[p].id) == k && a[id].ops[p].input == input;
    assert id in b && OpGrows(a[id].ops[p], b[id].ops[p]);
  }

  /** A move binds an item to an input only by a start, and to the one its handler carries. */
  lemma MoveBinds(w: World, m: Move, k: OpKey)
    requires SitesOk(w)
    ensures BoundInput(Step(w, m).At(k)) == BoundInput(w.At(k))
            || (m.StartItem? && m.h in w.handlers && w.handlers[m.h].key == k
                && BoundInput(Step(w, m).At(k)) == Some(w.handlers[m.h].input))
  {
    hide Apply, HasAnswer;
    var s := w.At(k);
    assert Singular.Coherent(s.item) by { UsedOk(w, k); }
    hide SitesOk;
    if !m.Drive? && !m.Put? && !m.Drop? && !m.Restart? { MoveItem(w, m, k); }
  }

  lemma UsedOk(w: World, k: OpKey)
    requires SitesOk(w)
    ensures SiteOk(w.At(k))
  {}

  /** What a participant's move does to the item of a key. */
  lemma StartSite(w: World, m: Move, k: OpKey)
    requires m.StartItem? && m.h in w.handlers && w.handlers[m.h].phase.Arrived?
    ensures var hd := w.handlers[m.h];
            DoStartItem(w, m).At(k)
            == if hd.key != k then w.At(k)
               else w.At(k).(item := Singular.Handle(w.At(k).item,
                                                     Singular.Start(hd.input, m.ts, m.expires, m.token)).item)
  {
    hide Singular.Handle, BoundInput;
  }

  lemma ResumeSite(w: World, m: Move, k: OpKey)
    requires m.ResumeItem? && m.h in w.handlers && w.handlers[m.h].phase.MustResume?
    ensures DoResumeItem(w, m).At(k)
            == if w.handlers[m.h].key != k then w.At(k)
               else w.At(k).(item := Singular.Handle(w.At(k).item, Singular.Reclaim(m.ts, m.expires, m.token)).item)
  {
    hide Singular.Handle;
  }

  lemma CompleteSite(w: World, m: Move, k: OpKey)
    requires m.CompleteItem? && m.h in w.handlers && w.handlers[m.h].phase.Ran?
    ensures var hd := w.handlers[m.h];
            DoCompleteItem(w, m).At(k)
            == if hd.key != k then w.At(k)
               else w.At(k).(item := Singular.Handle(w.At(k).item,
                                                     Singular.Complete(hd.phase.token, m.ts, hd.phase.result)).item)
  {
    hide Singular.Handle;
  }

  lemma BodySite(w: World, m: Move, k: OpKey)
    requires m.RunBody? && m.h in w.handlers && w.handlers[m.h].phase.Holding?
    ensures DoRunBody(w, m).At(k).item == w.At(k).item
  {}

  lemma MoveItem(w: World, m: Move, k: OpKey)
    requires Singular.Coherent(w.At(k).item) && !m.Drive? && !m.Put? && !m.Drop? && !m.Restart?
    ensures var a, b := w.At(k), Step(w, m).At(k);
            BoundInput(b) == BoundInput(a)
            || (m.StartItem? && m.h in w.handlers && w.handlers[m.h].key == k
                && BoundInput(b) == Some(w.handlers[m.h].input))
  {
    hide Singular.Handle, DoStartItem, DoResumeItem, DoRunBody, DoCompleteItem, Singular.Coherent;
    match m
    case StartItem(h, ts, expires, token) =>
      if h in w.handlers && w.handlers[h].phase.Arrived? {
        StartSite(w, m, k);
        ItemBinds(w.At(k), Singular.Start(w.handlers[h].input, ts, expires, token));
      }
    case ResumeItem(h, ts, expires, token) =>
      if h in w.handlers && w.handlers[h].phase.MustResume? {
        ResumeSite(w, m, k);
        ItemBinds(w.At(k), Singular.Reclaim(ts, expires, token));
      }
    case RunBody(h, _) => if h in w.handlers && w.handlers[h].phase.Holding? { BodySite(w, m, k); }
    case CompleteItem(h, ts) =>
      if h in w.handlers && w.handlers[h].phase.Ran? {
        CompleteSite(w, m, k);
        ItemBinds(w.At(k), Singular.Complete(w.handlers[h].phase.token, ts, w.handlers[h].phase.result));
      }
    case Get(_) =>
  }

  lemma ItemBinds(s: Site, r: Singular.Request)
    requires Singular.Coherent(s.item)
    ensures var n := s.(item := Singular.Handle(s.item, r).item);
            BoundInput(n) == BoundInput(s) || (r.Start? && BoundInput(n) == Some(r.meta))
  {}

  lemma MoveHandlers(w: World, m: Move, h: nat)
    requires h in Step(w, m).handlers
    ensures (h in w.handlers && Step(w, m).handlers[h].key == w.handlers[h].key
             && Step(w, m).handlers[h].input == w.handlers[h].input)
            || (m.Put? && Step(w, m).handlers[h].key == m.key && Step(w, m).handlers[h].input == m.input)
  {
    hide Apply, HasAnswer, Singular.Handle, RunIdempotent;
  }

  lemma MoveStored(w: World, maxDepth: nat, m: Move, k: OpKey)
    requires Inv(w.db, maxDepth) && SitesOk(w) && Moderate(m, maxDepth) && InputsStored(w, k)
    requires m.Put? && m.key == k ==> StoredInput(w.db, k, m.input)
    ensures InputsStored(Step(w, m), k)
  {
    hide Inv, SitesOk, Apply, StoredInput, HasAnswer;
    var n := Step(w, m);
    MoveBinds(w, m, k);
    if m.Drive? {
      ApplyInv(w.db, maxDepth, m.c);
      DriveSites(w, m.c, k);
      hide Step, DbGrows;
      forall input | StoredInput(w.db, k, input) ensures StoredInput(n.db, k, input) {
        if n.db != w.db { StoredStays(w.db, n.db, k, input); }
      }
    } else {
      AnswersGrow(w, m);
      hide Step;
      forall h | h in n.handlers && n.handlers[h].key == k ensures StoredInput(n.db, k, n.handlers[h].input) {
        MoveHandlers(w, m, h);
      }
    }
  }

  lemma DriveSites(w: World, c: Procedures.Cmd, k: OpKey)
    ensures var n := Step(w, Drive(c));
            n.handlers == w.handlers && n.At(k) == w.At(k)
            && (n.db == w.db || n.db == Apply(w.db, c).db)
  {
    hide Apply, HasAnswer;
  }

  lemma {:induction false} RunStored(w: World, maxDepth: nat, ms: seq<Move>, k: OpKey)
    requires Inv(w.db, maxDepth) && SitesOk(w) && InputsStored(w, k) && PutsFromRows(w, ms, k)
    requires forall i :: 0 <= i < |ms| ==> Moderate(ms[i], maxDepth)
    ensures InputsStored(RunWorld(w, ms), k)
    decreases |ms|
  {
    hide Inv, SitesOk, InputsStored, Step, StoredInput;
    if ms != [] {
      var n := Step(w, ms[0]);
      MoveStored(w, maxDepth, ms[0], k);
      StepSitesOk(w, ms[0]);
      StepInv(w, maxDepth, ms[0]);
      RunStored(n, maxDepth, ms[1..], k);
    }
  }

  lemma StepInv(w: World, maxDepth: nat, m: Move)
    requires Inv(w.db, maxDepth) && Moderate(m, maxDepth)
    ensures Inv(Step(w, m).db, maxDepth)
  {
    hide Inv, Apply, DbGrows, Step;
    if m.Drive? {
      ApplyInv(w.db, maxDepth, m.c);
      DriveSites(w, m.c, OpKey("", 0));
    } else {
      AnswersGrow(w, m);
    }
  }

  lemma DawnStored(maxDepth: nat, k: OpKey)
    ensures Inv(DAWN.db, maxDepth) && SitesOk(DAWN) && InputsStored(DAWN, k)
  {}

  /** Operation ids are unique, so a key names one row. */
  lemma OneRow(db: Db, maxDepth: nat, k: OpKey, input: Doc, id: Id, p: nat)
    requires Inv(db, maxDepth) && StoredInput(db, k, input)
    requires id in db && p in db[id].ops && db[id].ops[p].id == k.id
    ensures db[id].ops[p].input == input
  {
    var i, q: nat :| i in db && q in db[i].ops && db[i].ops[q].kind.Participant?
                     && OpKey(db[i].ops[q].name, db[i].ops[q].id) == k && db[i].ops[q].input == input;
    UniqueRow(db, maxDepth, i, q, id, p);
  }

  lemma UniqueRow(db: Db, maxDepth: nat, i: Id, q: nat, id: Id, p: nat)
    requires Inv(db, maxDepth) && i in db && q in db[i].ops && id in db && p in db[id].ops
    requires db[i].ops[q].id == db[id].ops[p].id
    ensures i == id && q == p
  {
    hide AllSound, AllLinked, AllRooted, AllDistinct;
  }

  /** A body runs on what the coordinator stored: in every run in which the PUTs for an operation are sent from
    * its row, the last execution of a settled operation, and with `ExactlyOnce` every one of them, had the
    * row's own input and gave the row's own result. */
  lemma ExecutedOnStoredInput(maxDepth: nat, ms: seq<Move>, id: Id, p: nat, k: OpKey)
    requires forall i :: 0 <= i < |ms| ==> Moderate(ms[i], maxDepth)
    requires PutsFromRows(DAWN, ms, k)
    ensures var n := RunWorld(DAWN, ms);
            id in n.db && n.db[id].IsSettled(p) && n.db[id].ops[p].kind.Participant?
            && OpKey(n.db[id].ops[p].name, n.db[id].ops[p].id) == k ==>
              var op := n.db[id].ops[p];
              n.At(k).last == Some(Execution(op.input, op.result.value))
  {
    hide Inv, RunWorld, PutsFromRows, SitesOk;
    ExactlyOnce(maxDepth, ms, k, id, p);
    DawnStored(maxDepth, k);
    RunStored(DAWN, maxDepth, ms, k);
    DawnInv(maxDepth, ms);
    var n := RunWorld(DAWN, ms);
    if id in n.db && n.db[id].IsSettled(p) && n.db[id].ops[p].kind.Participant?
       && OpKey(n.db[id].ops[p].name, n.db[id].ops[p].id) == k {
      OneRow(n.db, maxDepth, k, BoundInput(n.At(k)).value, id, p);
    }
  }

  lemma DawnInv(maxDepth: nat, ms: seq<Move>)
    requires forall i :: 0 <= i < |ms| ==> Moderate(ms[i], maxDepth)
    ensures Inv(RunWorld(DAWN, ms).db, maxDepth)
  {
    hide Inv, RunWorld;
    EmptyInv(maxDepth);
    WorldInv(DAWN, maxDepth, ms);
  }

  // ---------------------------------------------------------------- answers

  lemma Arrives(w: World, h: nat, k: OpKey, input: Doc)
    requires h !in w.handlers
    ensures var n := Step(w, Put(h, k, input));
            h in n.handlers && n.handlers[h] == Handler(k, input, Arrived) && n.At(k) == w.At(k)
  {}

  /** The handler that starts the item holds its lease; for an item under the same input it has to resume. */
  lemma Starts(w: World, h: nat, ts: Ts, expires: Ts, token: Id)
    requires h in w.handlers && w.handlers[h].phase.Arrived? && expires > ts
    requires var s := w.At(w.handlers[h].key); s.item.None? || BoundInput(s) == Some(w.handlers[h].input)
    ensures var hd, n := w.handlers[h], Step(w, StartItem(h, ts, expires, token));
            var s := w.At(hd.key);
            && h in n.handlers
            && n.handlers[h] == hd.(phase := if s.item.None? then Holding(token) else MustResume)
            && (s.item.Some? ==> n.At(hd.key) == s)
            && (s.item.None? ==>
                Singular.Leased(n.At(hd.key).item, token, expires) && n.At(hd.key).item.value.head == ts)
  {
    hide Apply, HasAnswer;
  }

  /** An expired lease is taken over. */
  lemma TakesOver(w: World, h: nat, ts: Ts, expires: Ts, token: Id, until: Ts, holder: Id)
    requires h in w.handlers && w.handlers[h].phase.MustResume? && expires > ts > until
    requires var s := w.At(w.handlers[h].key); Singular.Coherent(s.item) && Singular.Leased(s.item, holder, until)
    ensures var hd, n := w.handlers[h], Step(w, ResumeItem(h, ts, expires, token));
            && h in n.handlers && n.handlers[h] == hd.(phase := Holding(token))
            && Singular.Leased(n.At(hd.key).item, token, expires) && n.At(hd.key).item.value.head == ts
  {
    hide Apply, HasAnswer;
  }

  /** A settled item answers at once. */
  lemma ToldAtOnce(w: World, h: nat, ts: Ts, expires: Ts, token: Id)
    requires h in w.handlers && w.handlers[h].phase.MustResume?
    requires var s := w.At(w.handlers[h].key); SiteOk(s) && s.Done()
    ensures var hd, n := w.handlers[h], Step(w, ResumeItem(h, ts, expires, token));
            n.At(hd.key).Done() && exists r :: Success(hd.key, r) in n.answers
  {
    hide Apply, HasAnswer;
    var n := Step(w, ResumeItem(h, ts, expires, token));
    assert Success(w.handlers[h].key, Head(w.At(w.handlers[h].key)).value.payload) in n.answers;
  }

  lemma RunsBody(w: World, h: nat, made: Doc)
    requires h in w.handlers && w.handlers[h].phase.Holding?
    ensures var hd, n := w.handlers[h], Step(w, RunBody(h, made));
            && n.At(hd.key).effect.Some? && n.At(hd.key).item == w.At(hd.key).item
            && h in n.handlers && n.handlers[h] == hd.(phase := Ran(hd.phase.token, n.At(hd.key).effect.value))
  {
    hide Apply, HasAnswer;
  }

  lemma Completes(w: World, h: nat, ts: Ts, until: Ts)
    requires h in w.handlers && w.handlers[h].phase.Ran?
    requires var s := w.At(w.handlers[h].key);
             Singular.Leased(s.item, w.handlers[h].phase.token, until) && ts > s.item.value.head
    ensures var hd, n := w.handlers[h], Step(w, CompleteItem(h, ts));
            n.At(hd.key).Done() && Success(hd.key, hd.phase.result) in n.answers
  {
    hide Apply, HasAnswer;
  }

  lemma RunOne(w: World, m: Move, ms: seq<Move>)
    ensures RunWorld(w, [m] + ms) == RunWorld(Step(w, m), ms)
  {
    hide Step;
    assert ([m] + ms)[1..] == ms;
  }

  /** A holder can finish: run the body and complete. */
  lemma HolderFinishes(w: World, h: nat, until: Ts) returns (ms: seq<Move>)
    requires h in w.handlers && w.handlers[h].phase.Holding?
    requires Singular.Leased(w.At(w.handlers[h].key).item, w.handlers[h].phase.token, until)
    ensures var k, n := w.handlers[h].key, RunWorld(w, ms);
            n.At(k).Done() && exists r :: Success(k, r) in n.answers
    ensures forall i :: 0 <= i < |ms| ==> ms[i].RunBody? || ms[i].CompleteItem?
  {
    hide Step, Singular.Leased;
    var k := w.handlers[h].key;
    LeasedSome(w.At(k).item, w.handlers[h].phase.token, until);
    var a := RunBody(h, "{}");
    var b := CompleteItem(h, w.At(k).item.value.head + 1);
    ms := [a] + ([b] + []);
    RunsBody(w, h, "{}");
    Completes(Step(w, a), h, w.At(k).item.value.head + 1, until);
    RunOne(w, a, [b] + []);
    RunOne(Step(w, a), b, []);
    assert Success(k, Step(w, a).handlers[h].phase.result) in RunWorld(w, ms).answers;
  }

  lemma LeasedSome(s: Option<Singular.Item>, token: Id, until: Ts)
    requires Singular.Leased(s, token, until)
    ensures s.Some?
  {}

  /** An item that is not settled is leased to somebody. */
  lemma WorkingLeased(s: Site) returns (token: Id, until: Ts)
    requires SiteOk(s) && s.item.Some? && !s.Done()
    ensures Singular.Leased(s.item, token, until)
  {
    token, until := s.item.value.current.value, s.item.value.history[s.item.value.head].expires.value;
  }

  /** From every world the runs lead to, whatever crashed, restarted or lost its lease before: a PUT with the
    * input the key is bound to, or the first one, can be brought to a success, and the item to its end. */
  lemma AnswerCanBeHad(w: World, k: OpKey, input: Doc, h: nat) returns (ms: seq<Move>)
    requires SitesOk(w) && h !in w.handlers
    requires w.At(k).item.None? || BoundInput(w.At(k)) == Some(input)
    ensures var n := RunWorld(w, ms); n.At(k).Done() && exists r :: Success(k, r) in n.answers
    ensures forall i :: 0 <= i < |ms| ==> !ms[i].Drive? && !ms[i].Restart?
  {
    hide Step, Singular.Leased, SitesOk, SiteOk, Singular.Coherent;
    UsedOk(w, k);
    SiteCoherent(w.At(k));
    var s := w.At(k);
    var put, start := Put(h, k, input), StartItem(h, 0, 1, 0);
    Arrives(w, h, k, input);
    Starts(Step(w, put), h, 0, 1, 0);
    var w2 := Step(Step(w, put), start);
    var rest: seq<Move>;
    if s.item.None? {
      rest := HolderFinishes(w2, h, 1);
    } else if s.Done() {
      ToldAtOnce(w2, h, 0, 1, 0);
      rest := [ResumeItem(h, 0, 1, 0)] + [];
      RunOne(w2, ResumeItem(h, 0, 1, 0), []);
    } else {
      var holder, until := WorkingLeased(s);
      var resume := ResumeItem(h, until + 1, until + 2, 0);
      TakesOver(w2, h, until + 1, until + 2, 0, until, holder);
      var last := HolderFinishes(Step(w2, resume), h, until + 2);
      rest := [resume] + last;
      RunOne(w2, resume, last);
    }
    RunOne(w, put, [start] + rest);
    RunOne(Step(w, put), start, rest);
    ms := [put] + ([start] + rest);
  }

  lemma SiteCoherent(s: Site)
    requires SiteOk(s)
    ensures Singular.Coherent(s.item)
  {}
}
