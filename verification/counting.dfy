/** Counting the invocations of a system that pass a test. */
module Counting {
  import opened Protocol

  function Count(test: (Script, Local) -> bool, scripts: seq<Script>, locals: seq<Local>): nat
    requires |scripts| == |locals|
  {
    if locals == [] then 0
    else (if test(scripts[0], locals[0]) then 1 else 0) + Count(test, scripts[1..], locals[1..])
  }

  lemma {:induction false} CountUpdate(test: (Script, Local) -> bool, scripts: seq<Script>, locals: seq<Local>,
                                       i: nat, l': Local)
    requires |scripts| == |locals| && i < |locals|
    ensures Count(test, scripts, locals[i := l']) ==
            Count(test, scripts, locals)
            - (if test(scripts[i], locals[i]) then 1 else 0)
            + (if test(scripts[i], l') then 1 else 0)
  {
    var updated := locals[i := l'];
    if i == 0 {
      assert updated[1..] == locals[1..];
    } else {
      assert updated[1..] == locals[1..][i - 1 := l'];
      CountUpdate(test, scripts[1..], locals[1..], i - 1, l');
    }
  }

  lemma {:induction false} CountNone(test: (Script, Local) -> bool, scripts: seq<Script>, locals: seq<Local>)
    requires |scripts| == |locals|
    requires forall i :: 0 <= i < |locals| ==> !test(scripts[i], locals[i])
    ensures Count(test, scripts, locals) == 0
  {
    if locals != [] {
      CountNone(test, scripts[1..], locals[1..]);
    }
  }
}
