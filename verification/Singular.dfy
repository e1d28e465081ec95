/** The participant-side work item: one idempotency key, its projection row and its history. */
module Singular {
  import opened Options
  import opened Rows

  datatype Kind = Grant | Extension | Success | Failure

  /** A history row; a working row carries the lease deadline, a terminal one none. */
  datatype Entry = Entry(kind: Kind, token: Id, expires: Option<Ts>, meta: Doc, payload: Doc, checkpoint: Doc)

  /** The projection row with the history rows of the same key. */
  datatype Item = Item(head: Ts, current: Option<Id>, terminal: Option<Id>, history: map<Ts, Entry>)
  {
    predicate Working() { head in history && (history[head].kind.Grant? || history[head].kind.Extension?) }

    predicate Settled() { head in history && (history[head].kind.Success? || history[head].kind.Failure?) }

    function Claims(): nat { |ClaimTimes()| }

    function ClaimTimes(): set<Ts> { set t | t in history && history[t].kind.Grant? }
  }

  datatype Request =
    | Start(meta: Doc, ts: Ts, expires: Ts, token: Id)
    | Look
    | Reclaim(ts: Ts, expires: Ts, token: Id)
    | Extend(token: Id, ts: Ts, expires: Ts)
    | Complete(token: Id, ts: Ts, payload: Doc)
    | Fail(token: Id, ts: Ts, payload: Doc)

  datatype Reply =
    | InvalidLeaseExpiry | EventTimeConflict | HeadHistoryMissing
    | NotFound | Granted(expires: Ts) | Exists | StillActive(until: Option<Ts>)
    | Terminal(kind: Kind, payload: Doc) | Regranted(expires: Ts, attempt: nat, checkpoint: Doc)
    | LeaseExtended(expires: Ts) | TokenStale

  datatype Answer = Answer(reply: Reply, item: Option<Item>)

  const EMPTY: Doc := "{}"

  function Append(it: Item, ts: Ts, e: Entry): Item { it.(head := ts, history := it.history[ts := e]) }

  function DoStart(s: Option<Item>, r: Request): Answer
    requires r.Start?
  {
    if r.expires <= r.ts then Answer(InvalidLeaseExpiry, s)
    else if s.Some? then Answer(Exists, s)
    else
      Answer(Granted(r.expires),
             Some(Item(r.ts, Some(r.token), None,
                       map[r.ts := Entry(Grant, r.token, Some(r.expires), r.meta, EMPTY, EMPTY)])))
  }

  /** Resume: a terminal item replays before the offered lease is even looked at; a live lease
    * is never stolen; an expired one is granted anew under the caller's token. */
  function DoResume(s: Option<Item>, r: Request): Answer
    requires r.Look? || r.Reclaim?
  {
    if s.None? then Answer(NotFound, s)
    else
      var it := s.value;
      if it.head !in it.history then Answer(HeadHistoryMissing, s)
      else
        var h := it.history[it.head];
        if it.Settled() then Answer(Terminal(h.kind, h.payload), s)
        else if r.Look? then Answer(StillActive(h.expires), s)
        else if r.expires <= r.ts then Answer(InvalidLeaseExpiry, s)
        else if h.expires.Some? && r.ts <= h.expires.value then Answer(StillActive(h.expires), s)
        else if r.ts <= it.head then Answer(EventTimeConflict, s)
        else
          Answer(Regranted(r.expires, it.Claims(), h.checkpoint),
                 Some(Append(it, r.ts, Entry(Grant, r.token, Some(r.expires), h.meta, EMPTY, h.checkpoint))
                      .(current := Some(r.token))))
  }

  function DoExtend(s: Option<Item>, r: Request): Answer
    requires r.Extend?
  {
    if s.None? then Answer(NotFound, s)
    else
      var it := s.value;
      if it.head !in it.history then Answer(HeadHistoryMissing, s)
      else
        var h := it.history[it.head];
        if it.Settled() then Answer(if it.terminal == Some(r.token) then Terminal(h.kind, h.payload) else TokenStale, s)
        else if it.current != Some(r.token) then Answer(TokenStale, s)
        else if r.ts <= it.head then Answer(EventTimeConflict, s)
        else if r.expires <= r.ts then Answer(InvalidLeaseExpiry, s)
        else
          Answer(LeaseExtended(r.expires),
                 Some(Append(it, r.ts, Entry(Extension, r.token, Some(r.expires), h.meta, EMPTY, h.checkpoint))))
  }

  /** Complete and fail: one settle under the current token; afterwards only the writer's
    * token is told the stored result, whichever way it settled. */
  function DoSettle(s: Option<Item>, r: Request): Answer
    requires r.Complete? || r.Fail?
  {
    if s.None? then Answer(NotFound, s)
    else
      var it := s.value;
      if it.head !in it.history then Answer(HeadHistoryMissing, s)
      else
        var h := it.history[it.head];
        if it.Settled() then Answer(if it.terminal == Some(r.token) then Terminal(h.kind, h.payload) else TokenStale, s)
        else if it.current != Some(r.token) then Answer(TokenStale, s)
        else if r.ts <= it.head then Answer(EventTimeConflict, s)
        else
          var kind := if r.Complete? then Success else Failure;
          Answer(Terminal(kind, r.payload),
                 Some(Append(it, r.ts, Entry(kind, r.token, None, h.meta, r.payload, h.checkpoint))
                      .(current := None, terminal := Some(r.token))))
  }

  function Handle(s: Option<Item>, r: Request): Answer {
    match r
    case Start(_, _, _, _) => DoStart(s, r)
    case Look => DoResume(s, r)
    case Reclaim(_, _, _) => DoResume(s, r)
    case Extend(_, _, _) => DoExtend(s, r)
    case Complete(_, _, _) => DoSettle(s, r)
    case Fail(_, _, _) => DoSettle(s, r)
  }

  function RunItem(s: Option<Item>, rs: seq<Request>): Option<Item>
    decreases |rs|
  {
    if rs == [] then s else RunItem(Handle(s, rs[0]).item, rs[1..])
  }

  // ---------------------------------------------------------------- the invariant

  /** The head names the latest history row; every other row is a lease row; the live token is
    * the head's; a terminal head pins its writer. */
  ghost predicate Coherent(s: Option<Item>) {
    s.Some? ==>
      var it := s.value;
      it.head in it.history
      && (forall t :: t in it.history ==> t <= it.head)
      && (forall t :: t in it.history && t != it.head ==> it.history[t].kind.Grant? || it.history[t].kind.Extension?)
      && (forall t :: t in it.history && (it.history[t].kind.Grant? || it.history[t].kind.Extension?) ==>
            it.history[t].expires.Some? && it.history[t].expires.value > t)
      && it.Claims() >= 1
      && (it.Working() ==> it.current == Some(it.history[it.head].token) && it.terminal.None?)
      && (it.Settled() ==> it.current.None? && it.terminal == Some(it.history[it.head].token))
  }

  lemma AppendClaims(it: Item, ts: Ts, e: Entry)
    requires ts !in it.history
    ensures Append(it, ts, e).Claims() == it.Claims() + (if e.kind.Grant? then 1 else 0)
  {
    var old' := it.ClaimTimes();
    var new' := Append(it, ts, e).ClaimTimes();
    assert new' == old' + (if e.kind.Grant? then {ts} else {});
  }

  lemma HandleCoherent(s: Option<Item>, r: Request)
    requires Coherent(s)
    ensures Coherent(Handle(s, r).item)
  {
    var n := Handle(s, r).item;
    if s.None? {
      if n.Some? { assert r.ts in n.value.ClaimTimes(); }
    } else if n != s {
      assert n.value.history == s.value.history[n.value.head := n.value.history[n.value.head]];
      AppendClaims(s.value, n.value.head, n.value.history[n.value.head]);
      assert n.value.ClaimTimes() == Append(s.value, n.value.head, n.value.history[n.value.head]).ClaimTimes();
    }
  }

  lemma {:induction false} RunCoherent(s: Option<Item>, rs: seq<Request>)
    requires Coherent(s)
    ensures Coherent(RunItem(s, rs))
    decreases |rs|
  {
    if rs != [] {
      HandleCoherent(s, rs[0]);
      RunCoherent(Handle(s, rs[0]).item, rs[1..]);
    }
  }

  // ---------------------------------------------------------------- what every run keeps

  /** No reachable item is corrupt: the dangling-head error is never raised, and a granted
    * reclaim never meets an event-time conflict, because a lease outlives its own event. */
  lemma NeverDangling(s: Option<Item>, r: Request)
    requires Coherent(s)
    ensures Handle(s, r).reply != HeadHistoryMissing
    ensures r.Reclaim? ==> Handle(s, r).reply != EventTimeConflict
  {}

  /** History is append-only and each appended event is strictly later than all before it. */
  lemma HistoryAppends(s: Option<Item>, r: Request)
    requires Coherent(s) && s.Some? && Handle(s, r).item != s
    ensures var n := Handle(s, r).item;
            n.Some? && s.value.head < n.value.head && n.value.head !in s.value.history
            && n.value.history == s.value.history[n.value.head := n.value.history[n.value.head]]
  {}

  /** A settled item never changes again. */
  lemma {:induction false} TerminalForever(s: Option<Item>, rs: seq<Request>)
    requires Coherent(s) && s.Some? && s.value.Settled()
    ensures RunItem(s, rs) == s
    decreases |rs|
  {
    if rs != [] { TerminalForever(s, rs[1..]); }
  }

  ghost function TerminalRows(it: Item): set<Ts> {
    set t | t in it.history && (it.history[t].kind.Success? || it.history[t].kind.Failure?)
  }

  /** At most one terminal event per key, exactly one once settled, and it is the head. */
  lemma OneTerminalEvent(s: Option<Item>)
    requires Coherent(s) && s.Some?
    ensures TerminalRows(s.value) == (if s.value.Settled() then {s.value.head} else {})
  {
    assert forall t :: t in TerminalRows(s.value) ==> t == s.value.head;
    assert s.value.head in s.value.history;
  }

  /** The attempt number handed out with a reclaim is the number of claims but one. */
  lemma AttemptIsClaimsMinusOne(s: Option<Item>, r: Request)
    requires Coherent(s) && Handle(s, r).reply.Regranted?
    ensures Handle(s, r).item.value.Claims() == Handle(s, r).reply.attempt + 1
    ensures Handle(s, r).reply.attempt >= 1
  {
    var h := s.value.history[s.value.head];
    var e := Entry(Grant, r.token, Some(r.expires), h.meta, EMPTY, h.checkpoint);
    AppendClaims(s.value, r.ts, e);
    assert Handle(s, r).item.value.ClaimTimes() == Append(s.value, r.ts, e).ClaimTimes();
  }

  /** A working lease is granted anew exactly when it has run out, strictly. */
  lemma ReclaimExactlyWhenExpired(s: Option<Item>, r: Request)
    requires Coherent(s) && s.Some? && s.value.Working() && r.Reclaim? && r.expires > r.ts
    ensures Handle(s, r).reply.Regranted? <==> r.ts > s.value.history[s.value.head].expires.value
  {}

  // ---------------------------------------------------------------- what a reply promises

  /** The deadline a reply promises to the holder. */
  function Promise(r: Reply): Option<Ts> {
    match r
    case Granted(t) => Some(t)
    case Regranted(t, _, _) => Some(t)
    case LeaseExtended(t) => Some(t)
    case _ => None
  }

  /** The item is leased under this token until this time. */
  ghost predicate Leased(s: Option<Item>, token: Id, until: Ts) {
    s.Some? && s.value.Working() && s.value.current == Some(token)
    && s.value.history[s.value.head].expires == Some(until)
  }

  /** A promise is the stored deadline, and the one asked for. */
  lemma PromiseStored(s: Option<Item>, r: Request)
    requires Coherent(s) && Promise(Handle(s, r).reply).Some?
    ensures (r.Start? || r.Reclaim? || r.Extend?) && Promise(Handle(s, r).reply) == Some(r.expires)
    ensures Leased(Handle(s, r).item, r.token, r.expires)
  {}

  /** A request by somebody else than the holder, made before the deadline. */
  predicate Foreign(r: Request, token: Id, until: Ts) {
    match r
    case Reclaim(ts, _, _) => ts <= until
    case Extend(t, _, _) => t != token
    case Complete(t, _, _) => t != token
    case Fail(t, _, _) => t != token
    case _ => true
  }

  lemma {:induction false} LeaseStands(s: Option<Item>, token: Id, until: Ts, rs: seq<Request>)
    requires Leased(s, token, until) && forall i :: 0 <= i < |rs| ==> Foreign(rs[i], token, until)
    ensures RunItem(s, rs) == s
    decreases |rs|
  {
    if rs != [] {
      assert Foreign(rs[0], token, until);
      LeaseStands(s, token, until, rs[1..]);
    }
  }

  /** A lease lasts as long as its reply promises: whatever others send until then, the item stays as it
    * is, everybody who looks is told this deadline, a claim is refused exactly until it has passed, and
    * the holder still publishes. */
  lemma PromiseKept(s: Option<Item>, r: Request, rs: seq<Request>, q: Request)
    requires Coherent(s) && Promise(Handle(s, r).reply).Some?
    requires forall i :: 0 <= i < |rs| ==> Foreign(rs[i], r.token, r.expires)
    ensures var n := Handle(s, r).item;
            && RunItem(n, rs) == n
            && (q.Look? ==> Handle(n, q) == Answer(StillActive(Promise(Handle(s, r).reply)), n))
            && (q.Reclaim? && q.expires > q.ts ==>
                  if q.ts <= Promise(Handle(s, r).reply).value
                  then Handle(n, q) == Answer(StillActive(Promise(Handle(s, r).reply)), n)
                  else Handle(n, q).reply.Regranted?)
            && ((q.Complete? || q.Fail?) && q.token == r.token && q.ts > r.ts ==> Publishes(n, q, r.token))
  {
    PromiseStored(s, r);
    HandleCoherent(s, r);
    LeaseStands(Handle(s, r).item, r.token, r.expires, rs);
  }

  /** A settle stores the kind and the payload it was sent with, and every later answer repeats them: to
    * whoever looks or claims, and to the writer's token; any other token is stale. */
  lemma SettledAnswerRepeated(s: Option<Item>, r: Request, rs: seq<Request>, q: Request)
    requires Coherent(s) && (r.Complete? || r.Fail?) && Handle(s, r).item != s
    ensures var told := Terminal(if r.Complete? then Success else Failure, r.payload);
            var later := RunItem(Handle(s, r).item, rs);
            && Handle(s, r).reply == told
            && (q.Look? || q.Reclaim? ==> Handle(later, q) == Answer(told, later))
            && (q.Extend? || q.Complete? || q.Fail? ==>
                  Handle(later, q) == Answer(if q.token == r.token then told else TokenStale, later))
  {
    HandleCoherent(s, r);
    TerminalForever(Handle(s, r).item, rs);
  }

  /** Every row of an item carries the input it was started with. */
  lemma {:induction false} InputBound(r: Request, rs: seq<Request>)
    requires r.Start? && r.expires > r.ts
    ensures var later := RunItem(Handle(None, r).item, rs);
            later.Some? && forall t :: t in later.value.history ==> later.value.history[t].meta == r.meta
  {
    InputKept(Handle(None, r).item, r.meta, rs);
  }

  lemma {:induction false} InputKept(s: Option<Item>, meta: Doc, rs: seq<Request>)
    requires s.Some? && forall t :: t in s.value.history ==> s.value.history[t].meta == meta
    ensures var later := RunItem(s, rs);
            later.Some? && forall t :: t in later.value.history ==> later.value.history[t].meta == meta
    decreases |rs|
  {
    if rs != [] { InputKept(Handle(s, rs[0]).item, meta, rs[1..]); }
  }

  /** The token a request publishes under. */
  predicate Publishes(s: Option<Item>, r: Request, token: Id) {
    (r.Extend? || r.Complete? || r.Fail?) && r.token == token && Handle(s, r).item != s
  }

  /** Only the live token publishes. */
  lemma OnlyLiveTokenPublishes(s: Option<Item>, r: Request, token: Id)
    requires Publishes(s, r, token)
    ensures s.Some? && s.value.current == Some(token)
  {}

  predicate Offers(r: Request, token: Id) { (r.Start? || r.Reclaim?) && r.token == token }

  /** Some request of the run is a granted claim under this token. */
  ghost predicate GrantedDuring(s: Option<Item>, rs: seq<Request>, token: Id)
    decreases |rs|
  {
    rs != []
    && ((Offers(rs[0], token) && (Handle(s, rs[0]).reply.Regranted? || Handle(s, rs[0]).reply.Granted?))
        || GrantedDuring(Handle(s, rs[0]).item, rs[1..], token))
  }

  lemma {:induction false} PublishingNeedsGrant(s: Option<Item>, rs: seq<Request>, r: Request, token: Id)
    requires s.None? || s.value.current != Some(token)
    requires Publishes(RunItem(s, rs), r, token)
    ensures GrantedDuring(s, rs, token)
    decreases |rs|
  {
    if rs == [] {
      OnlyLiveTokenPublishes(s, r, token);
    } else {
      var n := Handle(s, rs[0]).item;
      if n.None? || n.value.current != Some(token) { PublishingNeedsGrant(n, rs[1..], r, token); }
    }
  }

  /** Right after its grant a token publishes: it can complete the item. */
  lemma GrantPublishes(s: Option<Item>, r: Request)
    requires Coherent(s) && (r.Reclaim? || r.Start?)
    requires Handle(s, r).reply.Regranted? || Handle(s, r).reply.Granted?
    ensures Publishes(Handle(s, r).item, Complete(r.token, r.ts + 1, EMPTY), r.token)
  {}

  /** A granted token publishes at some moment of the run. */
  lemma {:induction false} GrantedPublishes(s: Option<Item>, rs: seq<Request>, token: Id) returns (k: nat, r: Request)
    requires Coherent(s) && GrantedDuring(s, rs, token)
    ensures k <= |rs| && Publishes(RunItem(s, rs[..k]), r, token)
    decreases |rs|
  {
    var n := Handle(s, rs[0]).item;
    HandleCoherent(s, rs[0]);
    if Offers(rs[0], token) && (Handle(s, rs[0]).reply.Regranted? || Handle(s, rs[0]).reply.Granted?) {
      GrantPublishes(s, rs[0]);
      k, r := 1, Complete(token, rs[0].ts + 1, EMPTY);
      assert rs[..1][0] == rs[0] && rs[..1][1..] == [];
      assert RunItem(n, []) == n;
    } else {
      var j;
      j, r := GrantedPublishes(n, rs[1..], token);
      k := j + 1;
      assert rs[..k][0] == rs[0] && rs[..k][1..] == rs[1..][..j];
    }
  }

  /** Some request under this token publishes at some moment of the run. */
  ghost predicate PublishesDuring(s: Option<Item>, rs: seq<Request>, token: Id) {
    exists k: nat, r :: k <= |rs| && Publishes(RunItem(s, rs[..k]), r, token)
  }

  /** Once a lease was reclaimed, the earlier token can publish at some moment of a run if and only if
    * the run grants a claim under that same token: `resume` does not ask for a fresh one. */
  lemma ReclaimedTokenPowerless(s: Option<Item>, rs: seq<Request>, token: Id)
    requires Coherent(s) && (s.None? || s.value.current != Some(token))
    ensures PublishesDuring(s, rs, token) <==> GrantedDuring(s, rs, token)
  {
    hide Publishes, GrantedDuring, Coherent, RunItem;
    if GrantedDuring(s, rs, token) {
      var k, r := GrantedPublishes(s, rs, token);
    }
    if PublishesDuring(s, rs, token) {
      var k: nat, r :| k <= |rs| && Publishes(RunItem(s, rs[..k]), r, token);
      PublishingNeedsGrant(s, rs[..k], r, token);
      GrantedLonger(s, rs, k, token);
    }
  }

  lemma {:induction false} GrantedLonger(s: Option<Item>, rs: seq<Request>, k: nat, token: Id)
    requires k <= |rs| && GrantedDuring(s, rs[..k], token)
    ensures GrantedDuring(s, rs, token)
    decreases |rs|
  {
    assert rs[..k][0] == rs[0] && rs[..k][1..] == rs[1..][..k - 1];
    var n := Handle(s, rs[0]).item;
    if GrantedDuring(n, rs[1..][..k - 1], token) { GrantedLonger(n, rs[1..], k - 1, token); }
  }

  /** What can be seen beforehand: a token no claim of the run offers never publishes again. */
  lemma {:induction false} NeverOfferedNeverPublishes(s: Option<Item>, rs: seq<Request>, r: Request, token: Id)
    requires s.None? || s.value.current != Some(token)
    requires forall i :: 0 <= i < |rs| ==> !Offers(rs[i], token)
    ensures !Publishes(RunItem(s, rs), r, token)
    decreases |rs|
  {
    if rs == [] {
      if Publishes(s, r, token) { OnlyLiveTokenPublishes(s, r, token); }
    } else {
      assert !Offers(rs[0], token);
      NeverOfferedNeverPublishes(Handle(s, rs[0]).item, rs[1..], r, token);
    }
  }

  /** The exception is real: start under 1, reclaim under 2, reclaim under 1 again, and 1 settles. */
  lemma ReusedTokenPublishes()
    ensures var rs := [Start("m", 0, 10, 1), Reclaim(11, 20, 2), Reclaim(21, 30, 1)];
            Publishes(RunItem(None, rs), Complete(1, 22, "r"), 1)
  {
    var s1 := Handle(None, Start("m", 0, 10, 1)).item;
    var s2 := Handle(s1, Reclaim(11, 20, 2)).item;
    var s3 := Handle(s2, Reclaim(21, 30, 1)).item;
    var rs := [Start("m", 0, 10, 1), Reclaim(11, 20, 2), Reclaim(21, 30, 1)];
    assert rs[1..] == [Reclaim(11, 20, 2), Reclaim(21, 30, 1)];
    assert rs[1..][1..] == [Reclaim(21, 30, 1)];
    assert rs[1..][1..][1..] == [];
    assert RunItem(s2, rs[1..][1..]) == s3;
    assert RunItem(s1, rs[1..]) == s3;
  }

  // ---------------------------------------------------------------- the procedures, in place

  /** The two tables for one key. */
  class WorkItem {
    var present: bool
    var head: Ts
    var current: Option<Id>
    var terminal: Option<Id>
    var history: map<Ts, Entry>

    ghost function View(): Option<Item>
      reads this
    {
      if present then Some(Item(head, current, terminal, history)) else None
    }

    constructor ()
      ensures View() == None
    {
      present := false;
      head, current, terminal, history := 0, None, None, map[];
    }

    method Start(r: Request) returns (reply: Reply)
      requires r.Start?
      modifies this
      ensures Answer(reply, View()) == Handle(old(View()), r)
    {
      if r.expires <= r.ts { return InvalidLeaseExpiry; }
      if present { return Exists; }
      present, head, current, terminal := true, r.ts, Some(r.token), None;
      history := map[r.ts := Entry(Grant, r.token, Some(r.expires), r.meta, EMPTY, EMPTY)];
      return Granted(r.expires);
    }

    method Resume(r: Request) returns (reply: Reply)
      requires r.Look? || r.Reclaim?
      modifies this
      ensures Answer(reply, View()) == Handle(old(View()), r)
    {
      if !present { return NotFound; }
      if head !in history { return HeadHistoryMissing; }
      var h := history[head];
      if h.kind.Success? || h.kind.Failure? { return Terminal(h.kind, h.payload); }
      if r.Look? { return StillActive(h.expires); }
      if r.expires <= r.ts { return InvalidLeaseExpiry; }
      if h.expires.Some? && r.ts <= h.expires.value { return StillActive(h.expires); }
      if r.ts <= head { return EventTimeConflict; }
      var attempt := |set t | t in history && history[t].kind.Grant?|;
      history := history[r.ts := Entry(Grant, r.token, Some(r.expires), h.meta, EMPTY, h.checkpoint)];
      head, current := r.ts, Some(r.token);
      return Regranted(r.expires, attempt, h.checkpoint);
    }

    method ExtendLease(r: Request) returns (reply: Reply)
      requires r.Extend?
      modifies this
      ensures Answer(reply, View()) == Handle(old(View()), r)
    {
      if !present { return NotFound; }
      if head !in history { return HeadHistoryMissing; }
      var h := history[head];
      if h.kind.Success? || h.kind.Failure? {
        return if terminal == Some(r.token) then Terminal(h.kind, h.payload) else TokenStale;
      }
      if current != Some(r.token) { return TokenStale; }
      if r.ts <= head { return EventTimeConflict; }
      if r.expires <= r.ts { return InvalidLeaseExpiry; }
      history := history[r.ts := Entry(Extension, r.token, Some(r.expires), h.meta, EMPTY, h.checkpoint)];
      head := r.ts;
      return LeaseExtended(r.expires);
    }

    /** `complete` and `fail`, which differ in the event they write. */
    method Settle(r: Request) returns (reply: Reply)
      requires r.Complete? || r.Fail?
      modifies this
      ensures Answer(reply, View()) == Handle(old(View()), r)
    {
      if !present { return NotFound; }
      if head !in history { return HeadHistoryMissing; }
      var h := history[head];
      if h.kind.Grant? || h.kind.Extension? {
        if current != Some(r.token) { return TokenStale; }
        if r.ts <= head { return EventTimeConflict; }
        var kind := if r.Complete? then Success else Failure;
        history := history[r.ts := Entry(kind, r.token, None, h.meta, r.payload, h.checkpoint)];
        head, terminal, current := r.ts, Some(r.token), None;
        return Terminal(kind, r.payload);
      }
      return if terminal == Some(r.token) then Terminal(h.kind, h.payload) else TokenStale;
    }
  }
}
