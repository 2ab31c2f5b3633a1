/**
 * The worker's spool and the supervisor's ingress together: a file is posted, its delivery runs
 * among all the others, and the file goes once the post was answered with a success status,
 * whatever the answer's body says. A post may time out at any moment; the delivery then runs on.
 */
module SpooledIngress {
  import opened Wrappers
  import opened Text
  import opened Sequences
  import opened Ingress
  import Spool

  /** `removed`: this post's answer made the worker remove the file. */
  datatype Post = Post(payload: Spool.Payload, delivery: nat, replied: bool, removed: bool)

  /** The tenant of each registered session is fixed. */
  type Sessions = map<string, string>

  datatype System = System(ingress: Ingress.World, spool: Spool.State, posts: seq<Post>)

  datatype Reply = Arrives(unlinks: bool) | TimesOut

  datatype Move =
    | Observe(payload: Spool.Payload, writeWorks: bool)
    | PostFile(key: Spool.Key)
    | Serve(event: Ingress.Event)
    | Answer(post: nat, reply: Reply)

  /** What the endpoint refuses before it processes a message: status 400 or 404, and the file stays. */
  predicate Accepted(t: Sessions, p: Spool.Payload) {
    p.key.sessionId in t && Trim(p.key.messageId) != "" && Trim(p.customerId) != "" && Trim(p.text) != ""
  }

  function MessageOf(t: Sessions, p: Spool.Payload): MessageKey
    requires p.key.sessionId in t
  {
    MessageKey(t[p.key.sessionId], p.key.messageId)
  }

  /** The delivery is over and was answered with status 200. */
  predicate AnsweredOk(d: Delivery) {
    d.phase.Queued? || d.phase.Duplicate? || d.phase.Reported?
  }

  predicate HasEnded(d: Delivery) {
    AnsweredOk(d) || d.phase.Thrown?
  }

  /** What the worker makes of the answer: success is decided by the status alone. */
  function ResponseTo(d: Delivery, reply: Reply): Spool.Response {
    if reply.TimesOut? || !AnsweredOk(d) then Spool.Refused
    else if reply.unlinks then Spool.Accepted else Spool.AcceptedNotRemoved
  }

  /** Only status 200 in time counts as accepted, whatever the body says; the file then goes if it can be unlinked. */
  lemma ResponsesAre(d: Delivery, reply: Reply)
    ensures var ok := d.phase in {Queued, Duplicate, Reported};
      && (ResponseTo(d, reply) == Spool.Refused <==> !ok || reply == TimesOut)
      && (ResponseTo(d, reply) == Spool.Accepted <==> ok && reply == Arrives(true))
      && (ResponseTo(d, reply) == Spool.AcceptedNotRemoved <==> ok && reply == Arrives(false))
  {
  }

  /** What is posted at all: a message of a registered session with an id, a sender and a text. */
  lemma AcceptedWhen(t: Sessions, p: Spool.Payload)
    ensures Accepted(t, p) <==>
      p.key.sessionId in t && !AllSpace(p.key.messageId) && !AllSpace(p.customerId) && !AllSpace(p.text)
  {
    TrimIsEmptyIff(p.key.messageId);
    TrimIsEmptyIff(p.customerId);
    TrimIsEmptyIff(p.text);
  }

  predicate CanAnswer(s: System, p: nat, reply: Reply) {
    && p < |s.posts| && !s.posts[p].replied && s.posts[p].delivery < |s.ingress.deliveries|
    && (reply.Arrives? ==> HasEnded(s.ingress.deliveries[s.posts[p].delivery]))
  }

  function Answered(s: System, p: nat, reply: Reply): System
    requires CanAnswer(s, p, reply)
  {
    var post := s.posts[p];
    var response := ResponseTo(s.ingress.deliveries[post.delivery], reply);
    s.(spool := Spool.Step(s.spool, Spool.Deliver(post.payload.key, response)),
       posts := s.posts[p := post.(replied := true, removed := response == Spool.Accepted && post.payload.key in s.spool.files)])
  }

  predicate CanPost(t: Sessions, s: System, key: Spool.Key) {
    key in s.spool.files && s.spool.files[key].Some? && Accepted(t, s.spool.files[key].value)
  }

  function Posted(t: Sessions, s: System, key: Spool.Key): System
    requires CanPost(t, s, key)
  {
    var p := s.spool.files[key].value;
    s.(ingress := Ingress.Step(s.ingress, Deliver(MessageOf(t, p), p.customerId)),
       posts := s.posts + [Post(p, |s.ingress.deliveries|, false, false)])
  }

  function Step(t: Sessions, s: System, mv: Move): System {
    match mv
    case Observe(p, writeWorks) => s.(spool := Spool.Step(s.spool, Spool.Enqueue(p, writeWorks)))
    case PostFile(key) => if CanPost(t, s, key) then Posted(t, s, key) else s
    case Serve(ev) => s.(ingress := Ingress.Step(s.ingress, ev))
    case Answer(p, reply) => if CanAnswer(s, p, reply) then Answered(s, p, reply) else s
  }

  function Run(t: Sessions, s: System, mvs: seq<Move>): System
    decreases mvs
  {
    if mvs == [] then s else Run(t, Step(t, s, mvs[0]), mvs[1..])
  }

  const IDLE := System(Ingress.START, Spool.State(map[], []), [])

  // ---------------------------------------------------------------- what every move keeps

  ghost predicate GoodPost(t: Sessions, s: System, p: Post) {
    && Accepted(t, p.payload) && p.delivery < |s.ingress.deliveries|
    && s.ingress.deliveries[p.delivery].message == MessageOf(t, p.payload)
    && s.ingress.deliveries[p.delivery].customerId == p.payload.customerId
    && (p.removed ==> AnsweredOk(s.ingress.deliveries[p.delivery]))
  }

  ghost predicate Inv(t: Sessions, s: System) {
    && Ingress.Inv(s.ingress) && Spool.Inv(s.spool)
    && forall p :: 0 <= p < |s.posts| ==> GoodPost(t, s, s.posts[p])
  }

  /** Deliveries keep their message, and an answer that was given stands. */
  lemma DeliveriesStay(w: Ingress.World, ev: Ingress.Event, d: nat)
    requires d < |w.deliveries|
    ensures var w' := Ingress.Step(w, ev);
      && d < |w'.deliveries| && w'.deliveries[d].message == w.deliveries[d].message
      && w'.deliveries[d].customerId == w.deliveries[d].customerId
      && (HasEnded(w.deliveries[d]) ==> w'.deliveries[d] == w.deliveries[d])
      && (CallsInOrder(w.deliveries[d]) && Stored(w.deliveries[d]) ==> Stored(w'.deliveries[d]))
  {
  }

  lemma PostsStay(t: Sessions, s: System, ev: Ingress.Event)
    requires forall p :: 0 <= p < |s.posts| ==> GoodPost(t, s, s.posts[p])
    ensures forall p :: 0 <= p < |s.posts| ==> GoodPost(t, s.(ingress := Ingress.Step(s.ingress, ev)), s.posts[p])
  {
    forall p | 0 <= p < |s.posts| ensures GoodPost(t, s.(ingress := Ingress.Step(s.ingress, ev)), s.posts[p]) {
      DeliveriesStay(s.ingress, ev, s.posts[p].delivery);
    }
  }

  lemma StepKeepsInv(t: Sessions, s: System, mv: Move)
    requires Inv(t, s)
    ensures Inv(t, Step(t, s, mv))
  {
    match mv
    case Observe(p, writeWorks) => Spool.StepKeeps(s.spool, Spool.Enqueue(p, writeWorks), p.key);
    case PostFile(key) =>
      if CanPost(t, s, key) {
        var p := s.spool.files[key].value;
        Ingress.StepKeepsInv(s.ingress, Deliver(MessageOf(t, p), p.customerId));
        PostsStay(t, s, Deliver(MessageOf(t, p), p.customerId));
      }
    case Serve(ev) =>
      Ingress.StepKeepsInv(s.ingress, ev);
      PostsStay(t, s, ev);
    case Answer(p, reply) =>
      if CanAnswer(s, p, reply) {
        var response := ResponseTo(s.ingress.deliveries[s.posts[p].delivery], reply);
        Spool.StepKeeps(s.spool, Spool.Deliver(s.posts[p].payload.key, response), s.posts[p].payload.key);
        forall q | 0 <= q < |s.posts| ensures GoodPost(t, Answered(s, p, reply), Answered(s, p, reply).posts[q]) {
          assert GoodPost(t, s, s.posts[q]);
        }
      }
  }

  lemma {:induction false} RunKeepsInv(t: Sessions, s: System, mvs: seq<Move>)
    requires Inv(t, s)
    ensures Inv(t, Run(t, s, mvs))
    decreases mvs
  {
    if mvs != [] {
      StepKeepsInv(t, s, mvs[0]);
      RunKeepsInv(t, Step(t, s, mvs[0]), mvs[1..]);
    }
  }

  // ---------------------------------------------------------------- what a removed file tells

  /** No delivery of `m` is still running. */
  ghost predicate AllEnded(w: Ingress.World, m: MessageKey) {
    forall d :: 0 <= d < |w.deliveries| && w.deliveries[d].message == m ==> HasEnded(w.deliveries[d])
  }

  /** `m` has its root event and its job. */
  ghost predicate IsIngested(w: Ingress.World, m: MessageKey) {
    exists j :: 0 <= j < |w.jobs| && w.jobs[j].tenantId == m.tenantId && w.jobs[j].key == ProcessInbound(Root(m))
      && HasRoot(w, m, w.jobs[j].inboundEvent)
  }

  lemma JobsAreIngested(w: Ingress.World, m: MessageKey)
    requires Ingress.Inv(w)
    ensures IsIngested(w, m) <==> HasJob(w, m)
    ensures HasJob(w, m) <==> SomebodyStored(w, m)
  {
    if HasJob(w, m) {
      var j :| 0 <= j < |w.jobs| && w.jobs[j].tenantId == m.tenantId && w.jobs[j].key == ProcessInbound(Root(m));
      assert HasRoot(w, m, w.jobs[j].inboundEvent);
    }
    if SomebodyStored(w, m) {
      var x :| 0 <= x < |w.deliveries| && w.deliveries[x].message == m && Stored(w.deliveries[x]);
      assert GoodDelivery(w, w.deliveries[x]);
    }
  }

  /** The delivery left no job: it was turned away, or its append or its enqueue failed. */
  predicate LeftNoJob(d: Delivery) {
    TurnedAway(d) || AppendFailed(d) || EnqueueFailed(d)
  }

  /** For a delivery that is over these are the only ways. */
  lemma EndedLeftNoJobIff(w: Ingress.World, d: Delivery)
    requires GoodDelivery(w, d) && HasEnded(d)
    ensures LeftNoJob(d) <==> !Stored(d)
  {
    match d.enqueued
    case Some(chance) => assert chance.Works? || chance.Fails? || chance.FailsAfterwards?;
    case None => if d.appended.Some? { assert d.appended.value.Works? || d.appended.value.Fails? || d.appended.value.FailsAfterwards?; }
  }

  lemma StoredByOneOf(w: Ingress.World, m: MessageKey, d: nat)
    requires Ingress.Inv(w) && d < |w.deliveries| && w.deliveries[d].message == m
    ensures IsIngested(w, m) <==> Stored(w.deliveries[d]) || StoredByAnother(w, m, d)
  {
    JobsAreIngested(w, m);
    if SomebodyStored(w, m) {
      var x: nat :| x < |w.deliveries| && w.deliveries[x].message == m && Stored(w.deliveries[x]);
      assert GoodDelivery(w, w.deliveries[x]);
      assert x != d ==> StoredByAnother(w, m, d);
    }
  }

  /**
   * In every run, a file that its post's answer removed was answered as queued, as a duplicate or
   * as a failure. Its message is not ingested exactly when the post's own delivery was turned away
   * or failed to append or to enqueue, and no other delivery of the message has appended and
   * enqueued it.
   */
  lemma RemovedFilesAreIngestedIff(t: Sessions, mvs: seq<Move>, p: nat)
    requires p < |Run(t, IDLE, mvs).posts| && Run(t, IDLE, mvs).posts[p].removed
    ensures var s := Run(t, IDLE, mvs); var post := s.posts[p];
      && post.delivery < |s.ingress.deliveries| && post.payload.key.sessionId in t
      && var d, m := s.ingress.deliveries[post.delivery], MessageOf(t, post.payload);
      && d.message == m && AnsweredOk(d) && (d.phase.Queued? ==> !LeftNoJob(d))
      && (IsIngested(s.ingress, m) <==> !LeftNoJob(d) || StoredByAnother(s.ingress, m, post.delivery))
  {
    RunKeepsInv(t, IDLE, mvs);
    var s := Run(t, IDLE, mvs);
    var post := s.posts[p];
    assert GoodPost(t, s, post);
    var m := MessageOf(t, post.payload);
    EndedLeftNoJobIff(s.ingress, s.ingress.deliveries[post.delivery]);
    StoredByOneOf(s.ingress, m, post.delivery);
  }

  ghost predicate StoredByAnother(w: Ingress.World, m: MessageKey, d: nat) {
    exists x: nat :: x != d && x < |w.deliveries| && w.deliveries[x].message == m
      && w.deliveries[x].appended == Some(Works) && Stored(w.deliveries[x])
  }

  // ---------------------------------------------------------------- lost for good

  /** The move is no new sight of `m`: neither a new file for it nor a delivery from elsewhere. */
  predicate NotSeenAgain(t: Sessions, mv: Move, m: MessageKey) {
    match mv
    case Observe(p, _) => p.key.sessionId in t ==> MessageOf(t, p) != m
    case Serve(ev) => ev.Deliver? ==> ev.message != m
    case _ => true
  }

  /** No file in the spool is about `m`. */
  ghost predicate NoFile(t: Sessions, s: System, m: MessageKey) {
    forall key: Spool.Key :: key in s.spool.files && key.sessionId in t ==> MessageKey(t[key.sessionId], key.messageId) != m
  }

  ghost predicate Abandoned(t: Sessions, s: System, m: MessageKey) {
    NoFile(t, s, m) && AllEnded(s.ingress, m) && !SomebodyStored(s.ingress, m)
  }

  lemma ServedStaysAbandoned(w: Ingress.World, ev: Ingress.Event, m: MessageKey)
    requires AllEnded(w, m) && !SomebodyStored(w, m) && (ev.Deliver? ==> ev.message != m)
    ensures AllEnded(Ingress.Step(w, ev), m) && !SomebodyStored(Ingress.Step(w, ev), m)
  {
    var w' := Ingress.Step(w, ev);
    forall d: nat | d < |w'.deliveries| && w'.deliveries[d].message == m ensures HasEnded(w'.deliveries[d]) && !Stored(w'.deliveries[d]) {
      if d < |w.deliveries| { DeliveriesStay(w, ev, d); }
    }
  }

  lemma StepStaysAbandoned(t: Sessions, s: System, mv: Move, m: MessageKey)
    requires Inv(t, s) && Abandoned(t, s, m) && NotSeenAgain(t, mv, m)
    ensures Abandoned(t, Step(t, s, mv), m)
  {
    match mv
    case Serve(ev) => ServedStaysAbandoned(s.ingress, ev, m);
    case PostFile(key) =>
      if CanPost(t, s, key) {
        var p := s.spool.files[key].value;
        assert p.key == key;
        ServedStaysAbandoned(s.ingress, Deliver(MessageOf(t, p), p.customerId), m);
      }
    case _ =>
  }

  lemma {:induction false} RunStaysAbandoned(t: Sessions, s: System, mvs: seq<Move>, m: MessageKey)
    requires Inv(t, s) && Abandoned(t, s, m) && forall i :: 0 <= i < |mvs| ==> NotSeenAgain(t, mvs[i], m)
    ensures !IsIngested(Run(t, s, mvs).ingress, m)
    decreases mvs
  {
    if mvs == [] {
      JobsAreIngested(s.ingress, m);
    } else {
      StepStaysAbandoned(t, s, mvs[0], m);
      StepKeepsInv(t, s, mvs[0]);
      RunStaysAbandoned(t, Step(t, s, mvs[0]), mvs[1..], m);
    }
  }

  ghost predicate NeverIngested(t: Sessions, s: System, m: MessageKey) {
    forall mvs: seq<Move> :: (forall i :: 0 <= i < |mvs| ==> NotSeenAgain(t, mvs[i], m)) ==> !IsIngested(Run(t, s, mvs).ingress, m)
  }

  /**
   * Once no file is left and every delivery of a message has ended, it is lost for good, in every
   * run in which it is not observed anew, if and only if each of them was turned away, or failed
   * to append or to enqueue it.
   */
  lemma LostForGoodIff(t: Sessions, s: System, m: MessageKey)
    requires Inv(t, s) && NoFile(t, s, m) && AllEnded(s.ingress, m)
    ensures NeverIngested(t, s, m) <==>
      forall d :: 0 <= d < |s.ingress.deliveries| && s.ingress.deliveries[d].message == m ==> LeftNoJob(s.ingress.deliveries[d])
  {
    forall d | 0 <= d < |s.ingress.deliveries| && s.ingress.deliveries[d].message == m
      ensures LeftNoJob(s.ingress.deliveries[d]) <==> !Stored(s.ingress.deliveries[d])
    {
      EndedLeftNoJobIff(s.ingress, s.ingress.deliveries[d]);
    }
    if SomebodyStored(s.ingress, m) {
      JobsAreIngested(s.ingress, m);
      var none: seq<Move> := [];
      assert IsIngested(Run(t, s, none).ingress, m);
    } else {
      forall mvs: seq<Move> | forall i :: 0 <= i < |mvs| ==> NotSeenAgain(t, mvs[i], m) ensures !IsIngested(Run(t, s, mvs).ingress, m) {
        RunStaysAbandoned(t, s, mvs, m);
      }
    }
  }

  lemma PostIsAdmitted(t: Sessions, s: System, key: Spool.Key)
    requires Inv(t, s) && CanPost(t, s, key) && NobodyKeeps(s.ingress, MessageOf(t, s.spool.files[key].value))
    ensures var d, s' := |s.ingress.deliveries|, Run(t, s, [PostFile(key), Serve(Claim(|s.ingress.deliveries|, Works))]);
      && Inv(t, s') && d < |s'.ingress.deliveries| && s'.ingress.deliveries[d].phase == Appending
      && s'.ingress.deliveries[d].message == MessageOf(t, s.spool.files[key].value)
  {
    var p, d := s.spool.files[key].value, |s.ingress.deliveries|;
    RunTwo(t, s, PostFile(key), Serve(Claim(d, Works)));
    var s1 := Step(t, s, PostFile(key));
    StepKeepsInv(t, s, PostFile(key));
    NobodyKeepsMore(s.ingress, MessageOf(t, p), p.customerId);
    DeliveryIsAdmittedIff(s1.ingress, d);
    DeliveriesStay(s1.ingress, Claim(d, Works), d);
    StepKeepsInv(t, s1, Serve(Claim(d, Works)));
  }

  lemma AdmittedCanBeStored(t: Sessions, s: System, d: nat)
    requires Inv(t, s) && d < |s.ingress.deliveries| && s.ingress.deliveries[d].phase == Appending
    ensures IsIngested(Run(t, s, [Serve(Append(d, Works)), Serve(Enqueue(d, Works))]).ingress, s.ingress.deliveries[d].message)
  {
    var m := s.ingress.deliveries[d].message;
    RunTwo(t, s, Serve(Append(d, Works)), Serve(Enqueue(d, Works)));
    var s1 := Step(t, s, Serve(Append(d, Works)));
    StepKeepsInv(t, s, Serve(Append(d, Works)));
    assert s1.ingress.deliveries[d].phase.Enqueueing? && s1.ingress.deliveries[d].message == m;
    var s2 := Step(t, s1, Serve(Enqueue(d, Works)));
    StepKeepsInv(t, s1, Serve(Enqueue(d, Works)));
    assert Stored(s2.ingress.deliveries[d]) && s2.ingress.deliveries[d].message == m;
    JobsAreIngested(s2.ingress, m);
  }

  /** As long as the file is there and nobody keeps the claim, posting it again can still ingest the message. */
  lemma KeptFileCanBeIngested(t: Sessions, s: System, key: Spool.Key)
    requires Inv(t, s) && CanPost(t, s, key) && NobodyKeeps(s.ingress, MessageOf(t, s.spool.files[key].value))
    ensures var d, m := |s.ingress.deliveries|, MessageOf(t, s.spool.files[key].value);
      IsIngested(Run(t, s, [PostFile(key), Serve(Claim(d, Works))] + [Serve(Append(d, Works)), Serve(Enqueue(d, Works))]).ingress, m)
  {
    var d := |s.ingress.deliveries|;
    PostIsAdmitted(t, s, key);
    RunAppend(t, s, [PostFile(key), Serve(Claim(d, Works))], [Serve(Append(d, Works)), Serve(Enqueue(d, Works))]);
    AdmittedCanBeStored(t, Run(t, s, [PostFile(key), Serve(Claim(d, Works))]), d);
  }

  lemma NobodyKeepsMore(w: Ingress.World, m: MessageKey, customerId: string)
    requires NobodyKeeps(w, m)
    ensures NobodyKeeps(Ingress.Step(w, Deliver(m, customerId)), m)
  {
  }

  lemma RunTwo(t: Sessions, s: System, a: Move, b: Move)
    ensures Run(t, s, [a, b]) == Step(t, Step(t, s, a), b)
  {
    assert [a, b][1..] == [b] && [b][1..] == [];
    assert Run(t, Step(t, Step(t, s, a), b), []) == Step(t, Step(t, s, a), b);
    assert Run(t, Step(t, s, a), [b]) == Run(t, Step(t, Step(t, s, a), b), []);
  }

  // ---------------------------------------------------------------- the failing inputs

  /** The append fails, the claim is given back, the failure is reported with status 200, the file is removed. */
  function ReportedFailure(p: Spool.Payload): seq<Move> {
    [Observe(p, true), PostFile(p.key), Serve(Claim(0, Works)), Serve(Append(0, Fails)), Serve(Release(0, Works)), Answer(0, Arrives(true))]
  }

  lemma {:induction false} RunAppend(t: Sessions, s: System, a: seq<Move>, b: seq<Move>)
    ensures Run(t, s, a + b) == Run(t, Run(t, s, a), b)
    decreases a
  {
    if a == [] {
      Empty(b);
    } else {
      assert (a + b)[0] == a[0] && (a + b)[1..] == a[1..] + b;
      RunAppend(t, Step(t, s, a[0]), a[1..], b);
    }
  }

  lemma RunThree(t: Sessions, s: System, a: Move, b: Move, c: Move)
    ensures Run(t, s, [a, b, c]) == Step(t, Step(t, Step(t, s, a), b), c)
  {
    assert [a, b, c][1..] == [b, c];
    RunTwo(t, Step(t, s, a), b, c);
  }

  /** Observed, posted and claimed. */
  lemma FirstPostClaims(t: Sessions, p: Spool.Payload)
    requires Accepted(t, p)
    ensures var s := Run(t, IDLE, [Observe(p, true), PostFile(p.key), Serve(Claim(0, Works))]); var m := MessageOf(t, p);
      && s.spool == Spool.State(map[p.key := Some(p)], []) && s.posts == [Post(p, 0, false, false)]
      && s.ingress == Ingress.World(0, {m}, [], [], [Delivery(m, p.customerId, Appending, None, None)])
  {
    var m := MessageOf(t, p);
    RunThree(t, IDLE, Observe(p, true), PostFile(p.key), Serve(Claim(0, Works)));
    var s1 := IDLE.(spool := Spool.State(map[p.key := Some(p)], []));
    assert Step(t, IDLE, Observe(p, true)) == s1;
    var s2 := System(Ingress.START.(deliveries := [Delivery(m, p.customerId, Claiming, None, None)]), s1.spool, [Post(p, 0, false, false)]);
    assert Step(t, s1, PostFile(p.key)) == s2;
  }

  /** The append fails, the claim is released, and the answer says 200. */
  lemma FailureIsReported(t: Sessions, s: System, p: Spool.Payload, m: MessageKey)
    requires s.spool == Spool.State(map[p.key := Some(p)], []) && s.posts == [Post(p, 0, false, false)]
    requires s.ingress == Ingress.World(0, {m}, [], [], [Delivery(m, p.customerId, Appending, None, None)])
    ensures var s' := Run(t, s, [Serve(Append(0, Fails)), Serve(Release(0, Works)), Answer(0, Arrives(true))]);
      && s'.spool == Spool.State(map[], [p]) && s'.posts == [Post(p, 0, true, true)]
      && s'.ingress == Ingress.World(1, {}, [], [], [Delivery(m, p.customerId, Reported, Some(Fails), None)])
  {
    RunThree(t, s, Serve(Append(0, Fails)), Serve(Release(0, Works)), Answer(0, Arrives(true)));
    var s1 := s.(ingress := Ingress.World(1, {m}, [], [], [Delivery(m, p.customerId, Releasing, Some(Fails), None)]));
    assert Step(t, s, Serve(Append(0, Fails))) == s1;
    var s2 := s.(ingress := Ingress.World(1, {}, [], [], [Delivery(m, p.customerId, Reported, Some(Fails), None)]));
    assert Step(t, s1, Serve(Release(0, Works))) == s2;
    var s3 := s2.(spool := Spool.State(map[], [p]), posts := [Post(p, 0, true, true)]);
    assert Step(t, s2, Answer(0, Arrives(true))) == s3;
  }

  lemma ReportedIsLost(t: Sessions, s: System, p: Spool.Payload, m: MessageKey)
    requires Inv(t, s) && s.spool == Spool.State(map[], [p])
    requires s.ingress == Ingress.World(1, {}, [], [], [Delivery(m, p.customerId, Reported, Some(Fails), None)])
    ensures NeverIngested(t, s, m)
  {
    LostForGoodIff(t, s, m);
  }

  /** Any acceptable message can be lost so: no store misbehaves but one append, and no claim is left behind. */
  lemma ReportedFailureLosesTheMessage(t: Sessions, p: Spool.Payload)
    requires Accepted(t, p)
    ensures var s := Run(t, IDLE, ReportedFailure(p)); var m := MessageOf(t, p);
      && s.posts == [Post(p, 0, true, true)] && s.ingress.claims == {}
      && s.ingress.deliveries == [Delivery(m, p.customerId, Reported, Some(Fails), None)]
      && NeverIngested(t, s, m)
  {
    var m := MessageOf(t, p);
    var first, second := [Observe(p, true), PostFile(p.key), Serve(Claim(0, Works))],
                         [Serve(Append(0, Fails)), Serve(Release(0, Works)), Answer(0, Arrives(true))];
    assert ReportedFailure(p) == first + second;
    RunAppend(t, IDLE, first, second);
    FirstPostClaims(t, p);
    var s := Run(t, IDLE, first);
    FailureIsReported(t, s, p, m);
    RunKeepsInv(t, IDLE, ReportedFailure(p));
    ReportedIsLost(t, Run(t, s, second), p, m);
  }

  /** A webhook message without a sender throws after its claim; the sender's next try is told it is a duplicate. */
  lemma MalformedMessageIsADuplicate(w: Ingress.World, m: MessageKey, customerId: string)
    requires Ingress.Inv(w) && m !in w.claims && !WellFormed(m, customerId) && !HasJob(w, m)
    ensures var d := |w.deliveries|;
      var thrown := Ingress.Step(Ingress.Step(w, Deliver(m, customerId)), Claim(d, Works));
      var again := Ingress.Step(Ingress.Step(thrown, Deliver(m, customerId)), Claim(d + 1, Works));
      && thrown.deliveries[d].phase == Thrown(true) && again.deliveries[d + 1].phase == Duplicate && AnsweredOk(again.deliveries[d + 1])
      && forall evs :: !HasJob(Ingress.Run(again, evs), m)
  {
    var d := |w.deliveries|;
    var w1 := Ingress.Step(w, Deliver(m, customerId));
    var thrown := Ingress.Step(w1, Claim(d, Works));
    Ingress.StepKeepsInv(w, Deliver(m, customerId));
    Ingress.StepKeepsInv(w1, Claim(d, Works));
    var w2 := Ingress.Step(thrown, Deliver(m, customerId));
    Ingress.StepKeepsInv(thrown, Deliver(m, customerId));
    var again := Ingress.Step(w2, Claim(d + 1, Works));
    Ingress.StepKeepsInv(w2, Claim(d + 1, Works));
    SameJobs(w, again);
    forall evs ensures !HasJob(Ingress.Run(again, evs), m) { NoJobIsAdded(again, d, evs); }
  }
}
