/**
 * The order of the inputs of `PendingDelivery`: the agent loop puts back what it cannot acknowledge one by one, at
 * the front of the queue.
 */
module PendingOrder {
  import opened Text
  import opened PendingInput
  import opened PendingDelivery

  ghost predicate Increasing(tokens: seq<nat>) {
    forall i, j :: 0 <= i < j < |tokens| ==> tokens[i] < tokens[j]
  }

  lemma DropMiddle(a: seq<nat>, b: seq<nat>, c: seq<nat>)
    requires Increasing(a + b + c)
    ensures Increasing(a + c)
  {
    var all, rest := a + b + c, a + c;
    assert forall i :: 0 <= i < |rest| ==> rest[i] == all[if i < |a| then i else i + |b|];
  }

  lemma SuffixIncreases(a: seq<nat>, b: seq<nat>)
    requires Increasing(a + b)
    ensures Increasing(b)
  {
    assert forall i :: 0 <= i < |b| ==> b[i] == (a + b)[|a| + i];
  }

  lemma DropFirst(a: seq<nat>, b: seq<nat>, m: seq<nat>, c: seq<nat>)
    requires m != [] && Increasing(a + (b + m) + c)
    ensures Increasing(a + (b + m[1..]) + c)
  {
    var all, rest := a + (b + m) + c, a + (b + m[1..]) + c;
    assert forall i :: 0 <= i < |rest| ==> rest[i] == all[if i < |a| + |b| then i else i + 1];
  }

  /** What the loop has put back since it last answered; it is the front of the queue. */
  function Back(s: State): seq<nat> {
    if s.phase in {Settling, Returning} then s.returned else []
  }

  /** The order in which inputs were last in line: what was put back comes before what the loop still holds. */
  function Order(s: State): seq<nat> {
    (s.refused + s.open) + (Back(s) + s.loop) + if |Back(s)| <= |s.queued| then s.queued[|Back(s)|..] else []
  }

  ghost predicate Ordered(s: State) {
    |Back(s)| <= 1 && Back(s) <= s.queued && Increasing(Order(s))
  }

  lemma QueueIncreases(s: State)
    requires Ordered(s)
    ensures Increasing(s.queued)
  {
    var front, rest := s.refused + s.open, s.queued[|Back(s)|..];
    assert s.queued == Back(s) + rest;
    assert Order(s) == (front + Back(s)) + s.loop + rest;
    hide Order, Back, Increasing;
    DropMiddle(front + Back(s), s.loop, rest);
    assert (front + Back(s)) + rest == front + s.queued;
    SuffixIncreases(front, s.queued);
  }

  lemma OrderMembers(s: State, t: nat)
    requires Back(s) <= s.queued && t in Order(s)
    ensures t in Line(s)
  {
    assert s.queued == Back(s) + s.queued[|Back(s)|..];
  }

  lemma ArriveOrdered(s: State, id: string, content: string)
    requires Inv(s) && Ordered(s)
    ensures Ordered(Arrived(s, id, content))
  {
    var s', n := Arrived(s, id, content), |s.accepted|;
    if s' != s {
      forall t | t in Order(s) ensures t < n {
        OrderMembers(s, t);
        LineIsOld(s, t);
      }
      assert Back(s') == Back(s) && s'.queued == s.queued + [n];
      assert Order(s') == Order(s) + [n];
      hide Order, Arrived, Inv;
      assert forall i :: 0 <= i < |Order(s)| ==> Order(s)[i] in Order(s);
    }
  }

  lemma OrderIsLine(s: State)
    requires Back(s) == []
    ensures Order(s) == Line(s)
  {
  }

  lemma LoopFailsOrdered(s: State)
    requires Enabled(s, LoopFails) && Ordered(s)
    ensures Ordered(Apply(s, LoopFails))
  {
    var s', front := Apply(s, LoopFails), s.refused + s.open;
    OrderIsLine(s);
    OrderIsLine(s');
    assert Line(s) == front + s.loop + s.queued && Line(s') == front + s'.queued;
    assert s'.queued == if Fits(s, s.loop) then s.loop + s.queued else s.queued;
    hide Increasing, Order, Line, Apply;
    if Fits(s, s.loop) {
      assert Line(s') == Line(s);
    } else {
      DropMiddle(front, s.loop, s.queued);
    }
  }

  lemma LoopRefusesOrdered(s: State)
    requires Enabled(s, LoopAcknowledges(false)) && Ordered(s) && IsRefused(s, s.loop[0], false)
    ensures Ordered(Apply(s, LoopAcknowledges(false)))
  {
    hide Increasing, At;
  }

  /** The first input the loop holds is settled or dropped. */
  lemma LoopShortens(s: State, s': State)
    requires Ordered(s) && s.loop != [] && s'.loop == s.loop[1..] && Back(s') == Back(s)
    requires s'.refused == s.refused && s'.open == s.open && s'.queued == s.queued
    ensures Ordered(s')
  {
    assert |Back(s)| <= |s.queued|;
    hide Increasing, Back;
    DropFirst(s.refused + s.open, Back(s), s.loop, s.queued[|Back(s)|..]);
  }

  lemma FirstMoves(front: seq<nat>, loop: seq<nat>, queued: seq<nat>)
    requires loop != []
    ensures front + ([loop[0]] + loop[1..]) + ([loop[0]] + queued)[1..] == front + ([] + loop) + queued[0..]
  {
    assert [loop[0]] + loop[1..] == [] + loop && ([loop[0]] + queued)[1..] == queued[0..];
  }

  lemma ReturnForm(s: State)
    requires Enabled(s, Return) && |Apply(s, Return).returned| <= 1 && Fits(s, [s.loop[0]])
    ensures var s' := Apply(s, Return);
            && Back(s) == [] && Back(s') == [s.loop[0]] && s'.queued == [s.loop[0]] + s.queued
            && s'.refused == s.refused && s'.open == s.open && s'.loop == s.loop[1..]
  {
    hide Items, Ids;
    assert Apply(s, Return).returned == s.returned + [s.loop[0]];
  }

  lemma ReturnOrdered(s: State)
    requires Enabled(s, Return) && Ordered(s) && |Apply(s, Return).returned| <= 1 && Fits(s, [s.loop[0]])
    ensures Ordered(Apply(s, Return))
  {
    hide Increasing, Apply, Back, Fits;
    ReturnForm(s);
    FirstMoves(s.refused + s.open, s.loop, s.queued);
  }

  lemma RefuseOrdered(s: State)
    requires Shape(s) && Enabled(s, Acknowledge(false)) && Ordered(s) && IsRefused(s, s.open[0], false)
    ensures Ordered(Apply(s, Acknowledge(false)))
  {
    var s' := Apply(s, Acknowledge(false));
    assert s.refused + s.open == s'.refused + s'.open;
    OrderIsLine(s);
    OrderIsLine(s');
    assert Line(s') == Line(s) && |Back(s')| <= 1 && Back(s') <= s'.queued && Increasing(Order(s));
    hide Increasing, At, Order, Back, Line;
  }

  lemma AcknowledgeOrdered(s: State, stored: bool)
    requires Shape(s) && Enabled(s, Acknowledge(stored)) && Ordered(s) && !IsRefused(s, s.open[0], stored)
    ensures Ordered(Apply(s, Acknowledge(stored)))
  {
    var s', open := Apply(s, Acknowledge(stored)), s.open;
    OrderIsLine(s);
    OrderIsLine(s');
    assert Line(s) == [] + (s.refused + open) + s.queued && Line(s') == [] + (s.refused + open[1..]) + s.queued;
    assert Back(s') == [] && Increasing(Order(s));
    hide Increasing, Order, Apply, Line, Back;
    DropFirst([], s.refused, open, s.queued);
  }

  /** At the end of a turn it holds only what it puts back. */
  lemma EndForm(s: State, a: Action)
    requires Shape(s) && Enabled(s, a) && (a.Fail? || a.Finish?)
    ensures Held(s) == Batch(s, a) && Held(Apply(s, a)) == [] && Back(s) == [] && Back(Apply(s, a)) == []
    ensures Apply(s, a).queued == if Fits(s, Batch(s, a)) then Batch(s, a) + s.queued else s.queued
  {
    hide Items, Ids;
  }

  lemma EndOrdered(s: State, a: Action)
    requires Shape(s) && Enabled(s, a) && Ordered(s) && (a.Fail? || a.Finish?)
    ensures Ordered(Apply(s, a))
  {
    var s', batch := Apply(s, a), Batch(s, a);
    EndForm(s, a);
    OrderIsLine(s);
    OrderIsLine(s');
    assert Increasing(batch + s.queued) && Order(s') == [] + s'.queued;
    hide Increasing, Order, Apply, Batch, Back, Line, Held, Fits, Shape;
    SuffixIncreases(batch, s.queued);
    assert [] + s'.queued == s'.queued;
  }

  lemma LoopEndsOrdered(s: State)
    requires Enabled(s, LoopEnds) && Ordered(s)
    ensures Ordered(Apply(s, LoopEnds))
  {
    assert s.queued == Back(s) + s.queued[|Back(s)|..];
    hide Increasing;
    OrderIsLine(Apply(s, LoopEnds));
    assert Order(s) == Line(s);
  }

  lemma SameLineOrdered(s: State, s': State)
    requires Ordered(s) && Back(s) == [] && Back(s') == [] && Line(s') == Line(s)
    ensures Ordered(s')
  {
    OrderIsLine(s);
    OrderIsLine(s');
    hide Increasing, Order, Line;
  }

  /** An action that takes the whole queue, or only changes the phase. */
  lemma OtherOrdered(s: State, a: Action)
    requires Shape(s) && Enabled(s, a) && Ordered(s)
    requires a.Begin? || a.Drain? || a.Generate? || a.Take? || a.LoopAnswers? || a.Succeed?
    ensures Ordered(Apply(s, a))
  {
    SameLine(s, a);
    assert Back(s) == [] && Back(Apply(s, a)) == [];
    hide Ordered, Line, Apply, Back;
    SameLineOrdered(s, Apply(s, a));
  }

  lemma ApplyOrdered(s: State, a: Action)
    requires Inv(s) && Enabled(s, a) && Ordered(s) && |Apply(s, a).returned| <= 1
    ensures Ordered(Apply(s, a))
  {
    assert Shape(s);
    match a {
      case Arrive(id, content) =>
        hide *;
        ArriveOrdered(s, id, content);
      case LoopFails => LoopFailsOrdered(s);
      case LoopAcknowledges(stored) =>
        hide Inv, Ordered, Shape, At, Order;
        if IsRefused(s, s.loop[0], stored) { LoopRefusesOrdered(s); } else { LoopShortens(s, Apply(s, a)); }
      case Return =>
        hide Inv, Ordered, Shape, Items, Ids, Order;
        if Fits(s, [s.loop[0]]) { ReturnOrdered(s); } else { LoopShortens(s, Apply(s, a)); }
      case LoopEnds => LoopEndsOrdered(s);
      case Fail => EndOrdered(s, a);
      case Finish => EndOrdered(s, a);
      case Acknowledge(stored) =>
        hide Inv, Ordered, Shape, At, Order;
        if IsRefused(s, s.open[0], stored) { RefuseOrdered(s); } else { AcknowledgeOrdered(s, stored); }
      case _ => OtherOrdered(s, a);
    }
  }

  /** A second input put back overtakes the first. */
  lemma SecondReturnOvertakes(s: State, a: Action)
    requires Enabled(s, a) && Ordered(s) && |s.returned| <= 1 && |Apply(s, a).returned| > 1
    ensures !Increasing(Apply(s, a).queued)
  {
    assert a.Return? && Fits(s, [s.loop[0]]) && Back(s) == s.returned && |s.returned| == 1;
    var s', k := Apply(s, a), |s.refused| + |s.open|;
    assert s'.queued == [s.loop[0]] + s.queued;
    hide Apply, Requeued, Items, Ids;
    assert s'.queued[0] == s.loop[0] && s'.queued[1] == s.returned[0];
    assert Order(s)[k] == s.returned[0] && Order(s)[k + 1] == s.loop[0];
  }
}
