/** Which hook is late, told by the order of the calls. */
module LateHooks {
  import opened Options
  import opened Declarations

  /** The calls of a callback itself, in order. */
  function CallsOf(s: Script): (calls: seq<Call>)
    ensures forall i :: 0 <= i < |calls| ==> calls[i] < s
  {
    if s.Done? then [] else [s.call] + CallsOf(s.rest)
  }

  ghost predicate RegisteredBefore(calls: seq<Call>, i: nat)
    requires i <= |calls|
  {
    exists j :: 0 <= j < i && Registers(calls[j])
  }

  /** Call i panics, or a call inside it does: it registers a per-spec hook after a
      spec or scope of its own scope. begun says whether there was one before. */
  ghost predicate Panics(s: Script, begun: bool, i: nat, h: LateHook)
    requires i < |CallsOf(s)|
    decreases s, 0
  {
    var c := CallsOf(s)[i];
    match c
    case BeforeEach(Some(_)) => h == LateBefore && (begun || RegisteredBefore(CallsOf(s), i))
    case AfterEach(Some(_)) => h == LateAfter && (begun || RegisteredBefore(CallsOf(s), i))
    case Describe(_, Some(inner)) => FirstToPanic(inner, false, h)
    case _ => false
  }

  /** Nothing panics before some call, and that one does. */
  ghost predicate FirstToPanic(s: Script, begun: bool, h: LateHook)
    decreases s, 2
  {
    exists i: nat :: i < |CallsOf(s)| && Panics(s, begun, i, h) && QuietBefore(s, begun, i)
  }

  /** None of the first n calls panics. */
  ghost predicate QuietBefore(s: Script, begun: bool, n: nat)
    requires n <= |CallsOf(s)|
    decreases s, 1
  {
    forall i: nat, h :: i < n ==> !Panics(s, begun, i, h)
  }

  /** The hook at which the calls stop, if they do. */
  ghost predicate StopsAt(s: Script, begun: bool, late: Option<LateHook>) {
    match late
    case None => QuietBefore(s, begun, |CallsOf(s)|)
    case Some(h) => FirstToPanic(s, begun, h)
  }

  lemma {:induction false} RestPanics(c: Call, rest: Script, begun: bool, i: nat, h: LateHook)
    requires i < |CallsOf(rest)|
    ensures CallsOf(Then(c, rest))[i + 1] == CallsOf(rest)[i]
    ensures Panics(Then(c, rest), begun, i + 1, h) <==> Panics(rest, begun || Registers(c), i, h)
  {
    var calls, more := CallsOf(Then(c, rest)), CallsOf(rest);
    assert calls == [c] + more;
    if RegisteredBefore(calls, i + 1) {
      var j :| 0 <= j < i + 1 && Registers(calls[j]);
      assert j > 0 ==> Registers(more[j - 1]);
    }
    if RegisteredBefore(more, i) {
      var j :| 0 <= j < i && Registers(more[j]);
      assert Registers(calls[j + 1]);
    }
    assert Registers(c) ==> Registers(calls[0]);
    hide CallsOf, FirstToPanic;
  }

  /** The first call of a script, panicking or not. */
  lemma {:induction false} FirstCall(c: Call, rest: Script, begun: bool, h: LateHook)
    ensures |CallsOf(Then(c, rest))| > 0
    ensures Panics(Then(c, rest), begun, 0, h) <==>
              match c
              case BeforeEach(Some(_)) => begun && h == LateBefore
              case AfterEach(Some(_)) => begun && h == LateAfter
              case Describe(_, Some(inner)) => FirstToPanic(inner, false, h)
              case _ => false
  {
  }

  lemma {:induction false} FirstStops(c: Call, rest: Script, begun: bool, h: LateHook)
    requires |CallsOf(Then(c, rest))| > 0 && Panics(Then(c, rest), begun, 0, h)
    ensures StopsAt(Then(c, rest), begun, Some(h))
  {
    assert QuietBefore(Then(c, rest), begun, 0);
    hide Panics, CallsOf;
  }

  lemma {:induction false} RestStops(c: Call, rest: Script, begun: bool, late: Option<LateHook>)
    requires StopsAt(rest, begun || Registers(c), late)
    requires |CallsOf(Then(c, rest))| > 0 && forall g :: !Panics(Then(c, rest), begun, 0, g)
    ensures StopsAt(Then(c, rest), begun, late)
  {
    assert |CallsOf(Then(c, rest))| == |CallsOf(rest)| + 1;
    hide Panics, CallsOf, QuietBefore;
    match late {
      case None => QuietAfter(c, rest, begun, |CallsOf(rest)|);
      case Some(h) =>
        var i: nat :| i < |CallsOf(rest)| && Panics(rest, begun || Registers(c), i, h)
                      && QuietBefore(rest, begun || Registers(c), i);
        RestPanics(c, rest, begun, i, h);
        QuietAfter(c, rest, begun, i);
    }
  }

  lemma {:induction false} QuietAfter(c: Call, rest: Script, begun: bool, n: nat)
    requires n <= |CallsOf(rest)| && QuietBefore(rest, begun || Registers(c), n)
    requires |CallsOf(Then(c, rest))| == |CallsOf(rest)| + 1 && forall g :: !Panics(Then(c, rest), begun, 0, g)
    ensures QuietBefore(Then(c, rest), begun, n + 1)
  {
    hide Panics, CallsOf;
    forall j: nat, g | j < n + 1 ensures !Panics(Then(c, rest), begun, j, g) {
      if j > 0 { RestPanics(c, rest, begun, j - 1, g); }
    }
  }

  /** A suite is refused at the first call that panics, inside whatever scopes, and
      goes through if there is none. */
  lemma {:induction false} LateIsFirst(s: Script, begun: bool)
    ensures StopsAt(s, begun, Late(s, begun))
    decreases s
  {
    if s.Then? {
      var c, rest := s.call, s.rest;
      LateIsFirst(rest, begun || Registers(c));
      FirstCall(c, rest, begun, LateBefore);
      FirstCall(c, rest, begun, LateAfter);
      match c {
        case Describe(_, Some(inner)) =>
          LateIsFirst(inner, false);
          InnerStops(inner, Late(inner, false));
          if Late(inner, false).Some? { FirstCall(c, rest, begun, Late(inner, false).value); }
          LateOfScope(s, begun);
        case _ => LateOfCall(s, begun);
      }
      hide Late, StopsAt, Panics, CallsOf, FirstToPanic;
      assert s == Then(c, rest);
      if h :| Panics(s, begun, 0, h) {
        FirstStops(c, rest, begun, h);
      } else {
        RestStops(c, rest, begun, Late(rest, begun || Registers(c)));
      }
    }
  }

  lemma {:induction false} InnerStops(inner: Script, late: Option<LateHook>)
    requires StopsAt(inner, false, late)
    ensures forall h :: FirstToPanic(inner, false, h) <==> late == Some(h)
  {
    forall h | FirstToPanic(inner, false, h) ensures late == Some(h) {
      match late {
        case None => hide Panics, CallsOf;
        case Some(g) => OneIsFirst(inner, false, g, h);
      }
    }
  }

  lemma {:induction false} OneIsFirst(s: Script, begun: bool, g: LateHook, h: LateHook)
    requires FirstToPanic(s, begun, g) && FirstToPanic(s, begun, h)
    ensures g == h
    decreases s
  {
    var i: nat :| i < |CallsOf(s)| && Panics(s, begun, i, g) && QuietBefore(s, begun, i);
    var j: nat :| j < |CallsOf(s)| && Panics(s, begun, j, h) && QuietBefore(s, begun, j);
    SamePlace(s, begun, i, g, j, h);
    match CallsOf(s)[i] {
      case Describe(_, Some(inner)) => OneIsFirst(inner, false, g, h);
      case _ =>
    }
  }

  lemma {:induction false} SamePlace(s: Script, begun: bool, i: nat, g: LateHook, j: nat, h: LateHook)
    requires i < |CallsOf(s)| && Panics(s, begun, i, g) && QuietBefore(s, begun, i)
    requires j < |CallsOf(s)| && Panics(s, begun, j, h) && QuietBefore(s, begun, j)
    ensures i == j
  {
    hide Panics, CallsOf;
  }

  lemma {:induction false} LateOfScope(s: Script, begun: bool)
    requires s.Then? && s.call.Describe? && s.call.callback.Some?
    ensures var inner := Late(s.call.callback.value, false);
            Late(s, begun) == if inner.Some? then inner else Late(s.rest, true)
  {
  }

  lemma {:induction false} LateOfCall(s: Script, begun: bool)
    requires s.Then? && !(s.call.Describe? && s.call.callback.Some?)
    ensures Late(s, begun) == match s.call
                              case BeforeEach(Some(_)) => if begun then Some(LateBefore) else Late(s.rest, begun)
                              case AfterEach(Some(_)) => if begun then Some(LateAfter) else Late(s.rest, begun)
                              case _ => Late(s.rest, begun || Registers(s.call))
  {
  }
}
