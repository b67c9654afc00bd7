/**
 * The one `pending` list, scanned and deleted from in place, behaves as a FIFO queue for every
 * transaction under one global age order.
 */
module Fifo {
  import opened Prelude
  import opened Text
  import opened Core
  import opened Machine
  import opened Replay
  import Protocol
  import Waiters
  import Pipeline

  /** What the critical sections do to the list. */
  datatype ListOp =
    | Arrive(w: Waiter)  // a request registers
    | Answer(tr: Bytes)  // an ACK is taken for
    | GiveUp(id: nat)    // a request forgets its waiter
    | GiveUpAll          // the socket has died

  function After(pending: seq<Waiter>, op: ListOp): seq<Waiter> {
    match op
    case Arrive(w) => pending + [w]
    case Answer(tr) => TakeMatch(pending, tr).1
    case GiveUp(id) => RemoveId(pending, id)
    case GiveUpAll => []
  }

  function Pending(ops: seq<ListOp>): seq<Waiter> {
    if ops == [] then [] else After(Pending(ops[..|ops| - 1]), ops[|ops| - 1])
  }

  // ---- the queues ----

  /** The queue of transaction tr, oldest first. */
  function Queue(ws: seq<Waiter>, tr: Bytes): seq<Waiter> {
    if ws == [] then [] else
      Queue(ws[..|ws| - 1], tr) + if ws[|ws| - 1].tr == tr then [ws[|ws| - 1]] else []
  }

  lemma {:induction false} QueueJoin(a: seq<Waiter>, b: seq<Waiter>, tr: Bytes)
    ensures Queue(a + b, tr) == Queue(a, tr) + Queue(b, tr)
    decreases |b|
  {
    if b == [] {
      assert a + b == a;
    } else {
      var front := b[..|b| - 1];
      assert (a + b)[..|a + b| - 1] == a + front;
      QueueJoin(a, front, tr);
    }
  }

  lemma QueueOne(w: Waiter, tr: Bytes)
    ensures Queue([w], tr) == if w.tr == tr then [w] else []
  {
    assert [w][..0] == [];
  }

  lemma {:induction false} QueueNone(ws: seq<Waiter>, tr: Bytes)
    requires forall i :: 0 <= i < |ws| ==> ws[i].tr != tr
    ensures Queue(ws, tr) == []
    decreases |ws|
  {
    if ws != [] {
      QueueNone(ws[..|ws| - 1], tr);
    }
  }

  /** Deleting entry i from the list deletes it from its own queue and from no other. */
  lemma QueueDelete(ws: seq<Waiter>, i: nat, tr: Bytes)
    requires i < |ws|
    ensures Queue(ws, tr) == Queue(ws[..i], tr) + (if ws[i].tr == tr then [ws[i]] else []) + Queue(ws[i + 1..], tr)
    ensures Queue(Delete(ws, i), tr) == Queue(ws[..i], tr) + Queue(ws[i + 1..], tr)
  {
    assert ws == ws[..i] + [ws[i]] + ws[i + 1..];
    QueueJoin(ws[..i] + [ws[i]], ws[i + 1..], tr);
    QueueJoin(ws[..i], [ws[i]], tr);
    QueueOne(ws[i], tr);
    QueueJoin(ws[..i], ws[i + 1..], tr);
  }

  /** The first entry of its transaction is the head of its queue. */
  lemma HeadOut(ws: seq<Waiter>, i: nat, other: Bytes)
    requires i < |ws| && forall j :: 0 <= j < i ==> ws[j].tr != ws[i].tr
    ensures Queue(ws, ws[i].tr) == [ws[i]] + Queue(Delete(ws, i), ws[i].tr)
    ensures other != ws[i].tr ==> Queue(Delete(ws, i), other) == Queue(ws, other)
  {
    OwnQueue(ws, i);
    if other != ws[i].tr {
      OtherQueue(ws, i, other);
    }
  }

  lemma OwnQueue(ws: seq<Waiter>, i: nat)
    requires i < |ws| && forall j :: 0 <= j < i ==> ws[j].tr != ws[i].tr
    ensures Queue(ws, ws[i].tr) == [ws[i]] + Queue(Delete(ws, i), ws[i].tr)
  {
    var w, rest := ws[i], Queue(ws[i + 1..], ws[i].tr);
    QueueNone(ws[..i], w.tr);
    QueueDelete(ws, i, w.tr);
    WithoutHead(Queue(ws[..i], w.tr), w, rest);
  }

  lemma WithoutHead(head: seq<Waiter>, w: Waiter, rest: seq<Waiter>)
    requires head == []
    ensures head + [w] + rest == [w] + rest && head + rest == rest
  {}

  lemma OtherQueue(ws: seq<Waiter>, i: nat, other: Bytes)
    requires i < |ws| && other != ws[i].tr
    ensures Queue(Delete(ws, i), other) == Queue(ws, other)
  {
    var others := Queue(ws[..i], other);
    QueueDelete(ws, i, other);
    assert others + [] == others;
  }

  /**
   * An ACK takes the head of a queue: that of its own transaction, or, naming none, the queue of
   * the oldest waiter of all. It leaves the other queues alone, and takes nothing only if there
   * is nothing it could take.
   */
  lemma TakeRefines(pending: seq<Waiter>, tr: Bytes, other: Bytes)
    ensures
      var (w, after) := TakeMatch(pending, tr);
      match w
      case None => after == pending && (if tr == [] then pending == [] else Queue(pending, tr) == [])
      case Some(w) =>
        && (if tr == [] then w == pending[0] else w.tr == tr)
        && Queue(pending, w.tr) == [w] + Queue(after, w.tr)
        && (other != w.tr ==> Queue(after, other) == Queue(pending, other))
  {
    var i := FirstMatch(pending, tr);
    if i == |pending| {
      if tr != [] {
        QueueNone(pending, tr);
      }
    } else {
      assert tr == [] ==> i == 0 by {
        if i > 0 {
          assert !Matches(pending[0], tr);
        }
      }
      HeadOut(pending, i, other);
    }
  }

  // ---- what has happened to the list ----

  function Arrived(ops: seq<ListOp>): seq<Waiter> {
    if ops == [] then [] else
      Arrived(ops[..|ops| - 1]) + if ops[|ops| - 1].Arrive? then [ops[|ops| - 1].w] else []
  }

  /** The waiter the operation hands to an ACK. */
  function Reply(pending: seq<Waiter>, op: ListOp): Option<Waiter> {
    if op.Answer? then TakeMatch(pending, op.tr).0 else None
  }

  /** The waiters taken by ACKs, in order. */
  function Answered(ops: seq<ListOp>): seq<Waiter> {
    if ops == [] then [] else
      var front, last := ops[..|ops| - 1], ops[|ops| - 1];
      Answered(front) + (match Reply(Pending(front), last) case Some(w) => [w] case None => [])
  }

  /** What the ACKs naming tr have taken, one reply each. */
  function Replies(ops: seq<ListOp>, tr: Bytes): seq<Option<Waiter>> {
    if ops == [] then [] else
      var front, last := ops[..|ops| - 1], ops[|ops| - 1];
      Replies(front, tr) + if last == Answer(tr) then [Reply(Pending(front), last)] else []
  }

  /** Requests for tr that have been answered or are still waiting. */
  function Served(ops: seq<ListOp>, tr: Bytes): seq<Waiter> {
    Queue(Answered(ops), tr) + Queue(Pending(ops), tr)
  }

  lemma {:induction false} SubsequenceDelete<T>(a: seq<T>, i: nat, b: seq<T>)
    requires Subsequence(a, b) && i < |a|
    ensures Subsequence(a[..i] + a[i + 1..], b)
    decreases |b|
  {
    var d, b' := a[..i] + a[i + 1..], b[..|b| - 1];
    assert b == b' + [b[|b| - 1]];
    if a[|a| - 1] == b[|b| - 1] && Subsequence(a[..|a| - 1], b') {
      if i == |a| - 1 {
        assert d == a[..|a| - 1];
        SubsequenceRight(d, b', b[|b| - 1]);
      } else {
        SubsequenceDelete(a[..|a| - 1], i, b');
        var d' := a[..|a| - 1][..i] + a[..|a| - 1][i + 1..];
        assert d == d' + [a[|a| - 1]];
        SubsequenceBoth(d', b', b[|b| - 1]);
      }
    } else {
      SubsequenceDelete(a, i, b');
      SubsequenceRight(d, b', b[|b| - 1]);
    }
  }

  lemma {:induction false} SubsequencePrefix<T>(a: seq<T>, more: seq<T>, b: seq<T>)
    requires Subsequence(a + more, b)
    ensures Subsequence(a, b)
    decreases |more|
  {
    if more == [] {
      assert a + more == a;
    } else {
      SubsequenceInit(a + more, b);
      assert (a + more)[..|a + more| - 1] == a + more[..|more| - 1];
      SubsequencePrefix(a, more[..|more| - 1], b);
    }
  }

  function Optional(w: Option<Waiter>): seq<Waiter> {
    match w
    case Some(x) => [x]
    case None => []
  }

  lemma Unfold(ops: seq<ListOp>, op: ListOp, tr: Bytes)
    ensures Pending(ops + [op]) == After(Pending(ops), op)
    ensures Arrived(ops + [op]) == Arrived(ops) + if op.Arrive? then [op.w] else []
    ensures Answered(ops + [op]) == Answered(ops) + Optional(Reply(Pending(ops), op))
    ensures Replies(ops + [op], tr) == Replies(ops, tr) + if op == Answer(tr) then [Reply(Pending(ops), op)] else []
  {
    assert (ops + [op])[..|ops|] == ops;
  }

  /** The arrivals of tr, after one more operation. */
  lemma ArrivedNext(ops: seq<ListOp>, op: ListOp, tr: Bytes)
    ensures Queue(Arrived(ops + [op]), tr) ==
              Queue(Arrived(ops), tr) + if op.Arrive? && op.w.tr == tr then [op.w] else []
  {
    Unfold(ops, op, tr);
    var arrived := Arrived(ops);
    if op.Arrive? {
      QueueJoin(arrived, [op.w], tr);
      QueueOne(op.w, tr);
    } else {
      assert arrived + [] == arrived && Queue(arrived, tr) + [] == Queue(arrived, tr);
    }
  }

  /** The answered requests of tr, after one more operation. */
  lemma AnsweredNext(ops: seq<ListOp>, op: ListOp, tr: Bytes)
    ensures Queue(Answered(ops + [op]), tr) ==
              Queue(Answered(ops), tr) + Queue(Optional(Reply(Pending(ops), op)), tr)
  {
    Unfold(ops, op, tr);
    QueueJoin(Answered(ops), Optional(Reply(Pending(ops), op)), tr);
  }

  lemma ServedArrive(ops: seq<ListOp>, w: Waiter, tr: Bytes)
    ensures Served(ops + [Arrive(w)], tr) == Served(ops, tr) + if w.tr == tr then [w] else []
  {
    Unfold(ops, Arrive(w), tr);
    QueueJoin(Pending(ops), [w], tr);
    QueueOne(w, tr);
    assert Answered(ops) + [] == Answered(ops);
  }

  lemma ServedAnswer(ops: seq<ListOp>, named: Bytes, tr: Bytes)
    ensures Served(ops + [Answer(named)], tr) == Served(ops, tr)
  {
    var op, pending, answered := Answer(named), Pending(ops), Queue(Answered(ops), tr);
    Unfold(ops, op, tr);
    AnsweredNext(ops, op, tr);
    Handover(answered, pending, named, tr);
  }

  /** An ACK moves a waiter from the head of its queue to the end of the answered ones. */
  lemma Handover(answered: seq<Waiter>, pending: seq<Waiter>, named: Bytes, tr: Bytes)
    ensures var (w, after) := TakeMatch(pending, named);
      answered + Queue(Optional(w), tr) + Queue(after, tr) == answered + Queue(pending, tr)
  {
    TakeRefines(pending, named, tr);
    var (taken, after) := TakeMatch(pending, named);
    match taken
    case None => assert answered + [] == answered;
    case Some(w) =>
      QueueOne(w, tr);
      if w.tr == tr {
        Regroup(answered, [w], Queue(after, tr));
      } else {
        assert answered + [] == answered;
      }
  }

  lemma Regroup<T>(a: seq<T>, b: seq<T>, c: seq<T>)
    ensures a + b + c == a + (b + c)
  {}

  lemma ServedGiveUp(ops: seq<ListOp>, op: ListOp, tr: Bytes)
    requires op.GiveUp? || op.GiveUpAll?
    ensures Served(ops + [op], tr) == Queue(Answered(ops), tr) + Queue(After(Pending(ops), op), tr)
  {
    Unfold(ops, op, tr);
    assert Answered(ops) + [] == Answered(ops);
  }

  /** Giving up shortens the queue without reordering it. */
  lemma GivingUpSelects(ops: seq<ListOp>, op: ListOp, tr: Bytes, all: seq<Waiter>)
    requires (op.GiveUp? || op.GiveUpAll?) && Subsequence(Served(ops, tr), all)
    ensures Subsequence(Served(ops + [op], tr), all)
  {
    var answered, pending := Queue(Answered(ops), tr), Pending(ops);
    ServedGiveUp(ops, op, tr);
    if op.GiveUpAll? {
      SubsequencePrefix(answered, Queue(pending, tr), all);
      assert answered + [] == answered;
    } else if FirstId(pending, op.id) < |pending| {
      DeletingSelects(answered, pending, FirstId(pending, op.id), tr, all);
    }
  }

  lemma DeletingSelects(answered: seq<Waiter>, pending: seq<Waiter>, i: nat, tr: Bytes, all: seq<Waiter>)
    requires i < |pending| && Subsequence(answered + Queue(pending, tr), all)
    ensures Subsequence(answered + Queue(Delete(pending, i), tr), all)
  {
    QueueDelete(pending, i, tr);
    var before, after, served := Queue(pending[..i], tr), Queue(pending[i + 1..], tr), answered + Queue(pending, tr);
    if pending[i].tr == tr {
      var k := |answered + before|;
      SubsequenceDelete(served, k, all);
      assert served == answered + before + [pending[i]] + after;
      assert served[..k] + served[k + 1..] == answered + (before + after);
    } else {
      assert before + [] + after == before + after;
    }
  }

  /**
   * Order, whatever happens: the requests of one transaction that have been answered, followed
   * by those still waiting, are a selection of its registrations in the order they were made.
   */
  lemma {:induction false} AnsweredInOrder(ops: seq<ListOp>, tr: Bytes)
    ensures Subsequence(Served(ops, tr), Queue(Arrived(ops), tr))
    decreases |ops|
  {
    if ops != [] {
      var front, op := ops[..|ops| - 1], ops[|ops| - 1];
      assert ops == front + [op];
      AnsweredInOrder(front, tr);
      ArrivedNext(front, op, tr);
      var served, arrived := Served(front, tr), Queue(Arrived(front), tr);
      assert arrived + [] == arrived && served + [] == served;
      match op
      case Arrive(w) =>
        ServedArrive(front, w, tr);
        if w.tr == tr {
          SubsequenceBoth(served, arrived, w);
        }
      case Answer(named) => ServedAnswer(front, named, tr);
      case _ => GivingUpSelects(front, op, tr, arrived);
    }
  }

  // ---- the k-th ACK and the k-th request ----

  /** No request of tr is given up. */
  predicate Patient(ops: seq<ListOp>, tr: Bytes) {
    ops == [] ||
      var front, last := ops[..|ops| - 1], ops[|ops| - 1];
      && Patient(front, tr)
      && (last.GiveUp? || last.GiveUpAll? ==> Queue(After(Pending(front), last), tr) == Queue(Pending(front), tr))
  }

  lemma PatientFront(ops: seq<ListOp>, op: ListOp, tr: Bytes)
    requires Patient(ops + [op], tr)
    ensures Patient(ops, tr)
    ensures op.GiveUp? || op.GiveUpAll? ==> Queue(After(Pending(ops), op), tr) == Queue(Pending(ops), tr)
  {
    assert (ops + [op])[..|ops|] == ops;
  }

  /** Nothing is lost: every registration of a patient transaction is answered or waiting, in order. */
  lemma {:induction false} NothingLost(ops: seq<ListOp>, tr: Bytes)
    requires Patient(ops, tr)
    ensures Served(ops, tr) == Queue(Arrived(ops), tr)
    decreases |ops|
  {
    if ops != [] {
      var front, op := ops[..|ops| - 1], ops[|ops| - 1];
      assert ops == front + [op];
      PatientFront(front, op, tr);
      NothingLost(front, tr);
      ArrivedNext(front, op, tr);
      ServedNext(front, op, tr);
    }
  }

  /** While nothing of tr is given up, only arrivals change what is served. */
  lemma ServedNext(ops: seq<ListOp>, op: ListOp, tr: Bytes)
    requires op.GiveUp? || op.GiveUpAll? ==> Queue(After(Pending(ops), op), tr) == Queue(Pending(ops), tr)
    ensures Served(ops + [op], tr) == Served(ops, tr) + if op.Arrive? && op.w.tr == tr then [op.w] else []
  {
    assert Served(ops, tr) + [] == Served(ops, tr);
    match op
    case Arrive(w) => ServedArrive(ops, w, tr);
    case Answer(named) => ServedAnswer(ops, named, tr);
    case _ => ServedGiveUp(ops, op, tr);
  }

  /** Every ACK naming tr comes after the registration it stands for. */
  predicate NoOvertaking(ops: seq<ListOp>, tr: Bytes) {
    ops == [] ||
      (NoOvertaking(ops[..|ops| - 1], tr) && |Replies(ops, tr)| <= |Queue(Arrived(ops), tr)|)
  }

  /** The k-th reply goes to the k-th registration. */
  predicate InStep(replies: seq<Option<Waiter>>, arrived: seq<Waiter>) {
    |replies| <= |arrived| && forall k :: 0 <= k < |replies| ==> replies[k] == Some(arrived[k])
  }

  predicate Named(ops: seq<ListOp>) {
    Answer([]) !in ops
  }

  /** One more ACK for tr answers the next request in line, or nobody if none is left. */
  lemma NextReply(ops: seq<ListOp>, tr: Bytes)
    requires tr != [] && Patient(ops, tr)
    ensures var answered, arrived := |Queue(Answered(ops), tr)|, Queue(Arrived(ops), tr);
      && answered <= |arrived|
      && Reply(Pending(ops), Answer(tr)) == if answered < |arrived| then Some(arrived[answered]) else None
  {
    NothingLost(ops, tr);
    TakeRefines(Pending(ops), tr, tr);
  }

  /** An ACK that names tr answers requests of tr only. */
  lemma AnsweredCount(ops: seq<ListOp>, op: ListOp, tr: Bytes)
    requires tr != [] && op != Answer([])
    ensures |Queue(Answered(ops + [op]), tr)| ==
              |Queue(Answered(ops), tr)| + if op == Answer(tr) && Reply(Pending(ops), op).Some? then 1 else 0
  {
    AnsweredNext(ops, op, tr);
    match Reply(Pending(ops), op)
    case None =>
    case Some(w) => QueueOne(w, tr);
  }

  /** What has been shown of the replies so far. */
  predicate Going(overtaken: bool, replies: seq<Option<Waiter>>, arrived: seq<Waiter>, answered: nat) {
    if overtaken then None in replies else InStep(replies, arrived) && answered == |replies|
  }

  lemma GoesOn(replies: seq<Option<Waiter>>, arrived: seq<Waiter>, answered: nat, more: seq<Waiter>)
    requires Going(false, replies, arrived, answered)
    ensures Going(false, replies + [], arrived + more, answered)
    ensures answered < |arrived| ==> Going(false, replies + [Some(arrived[answered])], arrived + [], answered + 1)
    ensures answered == |arrived| ==> Going(true, replies + [None], arrived + [], answered)
  {
    assert replies + [] == replies && arrived + [] == arrived;
    assert (replies + [None])[|replies|] == None;
  }

  /** As long as nothing overtakes, replies and requests go in step; the first overtaking ACK answers nobody. */
  lemma {:induction false} StepByStep(ops: seq<ListOp>, tr: Bytes)
    requires tr != [] && Named(ops) && Patient(ops, tr)
    ensures GoingSoFar(ops, tr)
    decreases |ops|
  {
    if ops != [] {
      var front, op := ops[..|ops| - 1], ops[|ops| - 1];
      assert ops == front + [op];
      PatientFront(front, op, tr);
      StepByStep(front, tr);
      if op == Answer(tr) {
        GoesOnAnswer(front, tr);
      } else {
        GoesOnOther(front, op, tr);
      }
    }
  }

  predicate GoingSoFar(ops: seq<ListOp>, tr: Bytes) {
    Going(!NoOvertaking(ops, tr), Replies(ops, tr), Queue(Arrived(ops), tr), |Queue(Answered(ops), tr)|)
  }

  lemma GoesOnAnswer(ops: seq<ListOp>, tr: Bytes)
    requires tr != [] && Patient(ops, tr) && GoingSoFar(ops, tr)
    ensures GoingSoFar(ops + [Answer(tr)], tr)
  {
    var op := Answer(tr);
    ArrivedNext(ops, op, tr);
    AnsweredCount(ops, op, tr);
    RepliesNext(ops, op, tr);
    OvertakingNext(ops, op, tr);
    if NoOvertaking(ops, tr) {
      GoesOn(Replies(ops, tr), Queue(Arrived(ops), tr), |Queue(Answered(ops), tr)|, []);
    }
  }

  lemma GoesOnOther(ops: seq<ListOp>, op: ListOp, tr: Bytes)
    requires tr != [] && Patient(ops, tr) && op != Answer([]) && op != Answer(tr) && GoingSoFar(ops, tr)
    ensures GoingSoFar(ops + [op], tr)
  {
    ArrivedNext(ops, op, tr);
    AnsweredCount(ops, op, tr);
    RepliesNext(ops, op, tr);
    OvertakingNext(ops, op, tr);
    assert Replies(ops, tr) + [] == Replies(ops, tr);
    if NoOvertaking(ops, tr) {
      GoesOn(Replies(ops, tr), Queue(Arrived(ops), tr), |Queue(Answered(ops), tr)|,
             if op.Arrive? && op.w.tr == tr then [op.w] else []);
    }
  }

  lemma OvertakingNext(ops: seq<ListOp>, op: ListOp, tr: Bytes)
    ensures NoOvertaking(ops + [op], tr) <==>
              NoOvertaking(ops, tr) && |Replies(ops + [op], tr)| <= |Queue(Arrived(ops + [op]), tr)|
  {
    assert (ops + [op])[..|ops|] == ops;
  }

  lemma RepliesNext(ops: seq<ListOp>, op: ListOp, tr: Bytes)
    requires tr != [] && Patient(ops, tr)
    ensures var answered, arrived := |Queue(Answered(ops), tr)|, Queue(Arrived(ops), tr);
      Replies(ops + [op], tr) == Replies(ops, tr) +
        if op != Answer(tr) then [] else if answered < |arrived| then [Some(arrived[answered])] else [None]
    ensures op == Answer(tr) ==>
              (Reply(Pending(ops), op).Some? <==> |Queue(Answered(ops), tr)| < |Queue(Arrived(ops), tr)|)
  {
    Unfold(ops, op, tr);
    NextReply(ops, tr);
  }

  /**
   * FIFO on the wire: when no request of tr is given up and every ACK names its transaction, the
   * k-th ACK for tr answers the k-th request for tr, for every k, exactly if no ACK overtakes
   * its request.
   */
  lemma KthAckAnswersKth(ops: seq<ListOp>, tr: Bytes)
    requires tr != [] && Named(ops) && Patient(ops, tr)
    ensures InStep(Replies(ops, tr), Queue(Arrived(ops), tr)) <==> NoOvertaking(ops, tr)
  {
    StepByStep(ops, tr);
  }

  lemma {:induction false} QueueMember(ws: seq<Waiter>, tr: Bytes, w: Waiter)
    requires w in Queue(ws, tr)
    ensures w in ws && w.tr == tr
    decreases |ws|
  {
    if w in Queue(ws[..|ws| - 1], tr) {
      QueueMember(ws[..|ws| - 1], tr, w);
    }
  }

  /** The head of a queue gives up, and its successor becomes the head. */
  lemma HeadGivesUp(pending: seq<Waiter>, first: Waiter, rest: seq<Waiter>)
    requires Waiters.Distinct(pending) && Queue(pending, first.tr) == [first] + rest
    ensures Queue(RemoveId(pending, first.id), first.tr) == rest
  {
    QueueMember(pending, first.tr, first);
    var i := FirstId(pending, first.id);
    assert pending[i] == first;
    var before, after := Queue(pending[..i], first.tr), Queue(pending[i + 1..], first.tr);
    QueueDelete(pending, i, first.tr);
    if before != [] {
      assert (before + [first] + after)[0] == before[0];
      QueueMember(pending[..i], first.tr, first);
    }
    assert before == [];
    assert ([first] + rest)[1..] == rest && (before + [first] + after)[1..] == after;
    assert before + after == after;
  }

  /**
   * Patience is needed: once the oldest request of a transaction is forgotten, its late ACK goes
   * to the next one, although no ACK has overtaken its request.
   */
  lemma LateAckGoesToTheNext(ops: seq<ListOp>, first: Waiter, second: Waiter, rest: seq<Waiter>)
    requires Waiters.Distinct(Pending(ops)) && Queue(Pending(ops), first.tr) == [first] + ([second] + rest)
    requires first.tr != []
    requires NoOvertaking(ops, first.tr) && |Replies(ops, first.tr)| < |Queue(Arrived(ops), first.tr)|
    ensures
      var late := ops + [GiveUp(first.id)] + [Answer(first.tr)];
      NoOvertaking(late, first.tr) && Replies(late, first.tr) == Replies(ops, first.tr) + [Some(second)]
  {
    var tr, after := first.tr, ops + [GiveUp(first.id)];
    Grow(ops, GiveUp(first.id), tr);
    HeadGivesUp(Pending(ops), first, [second] + rest);
    assert Replies(ops, tr) + [] == Replies(ops, tr);
    assert Queue(Arrived(ops), tr) + [] == Queue(Arrived(ops), tr);
    Grow(after, Answer(tr), tr);
    TakeRefines(Pending(after), tr, tr);
    assert Queue(Pending(after), tr)[0] == second;
  }

  lemma Grow(ops: seq<ListOp>, op: ListOp, tr: Bytes)
    ensures Pending(ops + [op]) == After(Pending(ops), op)
    ensures Replies(ops + [op], tr) == Replies(ops, tr) + if op == Answer(tr) then [Reply(Pending(ops), op)] else []
    ensures Queue(Arrived(ops + [op]), tr) ==
              Queue(Arrived(ops), tr) + if op.Arrive? && op.w.tr == tr then [op.w] else []
    ensures NoOvertaking(ops + [op], tr) <==>
              NoOvertaking(ops, tr) && |Replies(ops + [op], tr)| <= |Queue(Arrived(ops + [op]), tr)|
  {
    Unfold(ops, op, tr);
    ArrivedNext(ops, op, tr);
    OvertakingNext(ops, op, tr);
  }

  // ---- the list of the running connection ----

  /** What a step of the connection does to the list. */
  function OpOf(s: State, step: Step): seq<ListOp> {
    match step
    case ReaderTurn(DoJudge) =>
      if s.run.Reader? && s.run.r.Handling? && s.run.r.raw.Ack? then [Answer(s.run.r.raw.ack.tr)] else []
    case ReaderTurn(DoFailAll) => [GiveUpAll]
    case RequestTurn(id, DoRegister) =>
      if id < |s.reqs| && !s.core.closed then [Arrive(Waiter(id, s.reqs[id].sub.tr))] else []
    case RequestTurn(id, DoForget) => [GiveUp(id)]
    case _ => []
  }

  /** What a whole schedule has done to the list, in order. */
  function Ops(env: Env, s: State, steps: seq<Step>): seq<ListOp> {
    if steps == [] then [] else
      var front := steps[..|steps| - 1];
      Ops(env, s, front) +
      match Execute(env, s, front)
      case None => []
      case Some(mid) => OpOf(mid, steps[|steps| - 1])
  }

  predicate Does(pending: seq<Waiter>, ops: seq<ListOp>, after: seq<Waiter>) {
    if ops == [] then after == pending else |ops| == 1 && after == After(pending, ops[0])
  }

  lemma ReaderDoes(env: Env, s: State, a: ReaderAct)
    requires ReaderNext(env, s, a).Some?
    ensures Does(s.core.pending, OpOf(s, ReaderTurn(a)), ReaderNext(env, s, a).value.core.pending)
  {
    if a.DoJudge? && s.run.r.raw.Ack? {
      assert ReaderNext(env, s, a) == Some(TakeAck(env, s, s.run.r.t, s.run.r.raw.ack));
    }
  }

  lemma RequestDoes(s: State, id: nat, a: RequestAct)
    requires RequestNext(s, id, a).Some?
    ensures Does(s.core.pending, OpOf(s, RequestTurn(id, a)), RequestNext(s, id, a).value.core.pending)
  {}

  lemma StepDoes(env: Env, s: State, step: Step, s': State)
    requires Next(env, s, step) == Some(s')
    ensures Does(s.core.pending, OpOf(s, step), s'.core.pending)
  {
    match step
    case ReaderTurn(a) => ReaderDoes(env, s, a);
    case DialTurn(_) =>
    case RequestTurn(id, a) => RequestDoes(s, id, a);
    case PassTurn(_) =>
    case CloseTurn(_) =>
    case Consume =>
    case Call(_, _) =>
  }

  /** The list of the connection is what its history of registrations, ACKs and failures makes it. */
  lemma {:induction false} PendingFollowsHistory(env: Env, key: Bytes, steps: seq<Step>, s: State)
    requires Execute(env, Init(key), steps) == Some(s)
    ensures s.core.pending == Pending(Ops(env, Init(key), steps))
    decreases |steps|
  {
    if steps != [] {
      var front := steps[..|steps| - 1];
      var mid := Execute(env, Init(key), front).value;
      PendingFollowsHistory(env, key, front, mid);
      StepDoes(env, mid, steps[|steps| - 1], s);
      OpsNext(env, key, steps, mid);
    }
  }

  lemma OpsNext(env: Env, key: Bytes, steps: seq<Step>, mid: State)
    requires steps != [] && Execute(env, Init(key), steps[..|steps| - 1]) == Some(mid)
    ensures
      var before, done := Ops(env, Init(key), steps[..|steps| - 1]), OpOf(mid, steps[|steps| - 1]);
      && Ops(env, Init(key), steps) == before + done
      && (done == [] ==> Ops(env, Init(key), steps) == before)
      && |done| <= 1
      && (done != [] ==> Pending(before + done) == After(Pending(before), done[0]))
  {
    var before, done := Ops(env, Init(key), steps[..|steps| - 1]), OpOf(mid, steps[|steps| - 1]);
    assert before + [] == before;
    if done != [] {
      assert (before + done)[..|before|] == before;
    }
  }

  /**
   * In any run of the connection: while no request of tr has been given up, no ACK came without a
   * transaction and none overtook its request, the next ACK naming tr takes the waiter of the
   * request whose turn it is.
   */
  lemma AckTakesItsRequest(env: Env, key: Bytes, steps: seq<Step>, s: State, t: nat, ack: Protocol.AckMessage)
    requires Execute(env, Init(key), steps) == Some(s) && s.run == Reader(Handling(t, Pipeline.Ack(ack)))
    requires ack.tr != []
    requires
      var ops := Ops(env, Init(key), steps);
      Named(ops) && Patient(ops, ack.tr) && NoOvertaking(ops + [Answer(ack.tr)], ack.tr)
    ensures
      var ops := Ops(env, Init(key), steps);
      var k, arrived := |Replies(ops, ack.tr)|, Queue(Arrived(ops), ack.tr);
      k < |arrived| && Taken(s, ack) == (Some(arrived[k]), ack.tr)
  {
    var ops := Ops(env, Init(key), steps);
    PendingFollowsHistory(env, key, steps, s);
    Grow(ops, Answer(ack.tr), ack.tr);
    StepByStep(ops, ack.tr);
    NextReply(ops, ack.tr);
  }
}
