/** Failure-carrying results for the runtime faults the C# code can raise. */
module Wrappers {

  datatype Option<+T> = None | Some(value: T)

  /** The two exceptions the engine can throw on malformed or inconsistent data. */
  datatype Fault = IndexOutOfRange | NullReference

  /** A computation that either completes or stops with a fault. Usable with `:-`. */
  datatype Result<+T> = Ok(value: T) | Err(fault: Fault) {

    predicate IsFailure() {
      Err?
    }

    function PropagateFailure<U>(): Result<U>
      requires Err?
    {
      Err(fault)
    }

    function Extract(): T
      requires Ok?
    {
      value
    }
  }

  /**
   * The results of a loop that runs from the last element to the first and stops
   * at the first fault it meets: all values when every step completes, otherwise
   * the fault of the last failing step.
   */
  function CollectFromEnd<T>(rs: seq<Result<T>>): (r: Result<seq<T>>)
    ensures r.Ok? <==> forall i :: 0 <= i < |rs| ==> rs[i].Ok?
    ensures r.Ok? ==> |r.value| == |rs| && forall i :: 0 <= i < |rs| ==> rs[i] == Ok(r.value[i])
    ensures r.Err? ==> exists i :: 0 <= i < |rs| && rs[i] == Err(r.fault) && forall j :: i < j < |rs| ==> rs[j].Ok?
  {
    if |rs| == 0 then Ok([])
    else
      var init := rs[..|rs| - 1];
      assert forall i :: 0 <= i < |init| ==> init[i] == rs[i];
      var last := rs[|rs| - 1];
      assert rs == init + [last];
      if last.Err? then Err(last.fault)
      else
        var rest := CollectFromEnd(init);
        if rest.Err? then
          LastFaultExtends(init, last, rest.fault);
          Err(rest.fault)
        else Ok(rest.value + [last.value])
  }

  /** A fault after which every step completes stays so when one more completing step is appended. */
  lemma LastFaultExtends<T>(init: seq<Result<T>>, last: Result<T>, f: Fault)
    requires last.Ok?
    requires exists i :: 0 <= i < |init| && init[i] == Err(f) && forall j :: i < j < |init| ==> init[j].Ok?
    ensures exists i :: 0 <= i < |init| + 1 && (init + [last])[i] == Err(f) && forall j :: i < j < |init| + 1 ==> (init + [last])[j].Ok?
  {
    var i :| 0 <= i < |init| && init[i] == Err(f) && forall j :: i < j < |init| ==> init[j].Ok?;
    var rs := init + [last];
    assert rs[i] == Err(f);
    assert forall j :: i < j < |rs| ==> rs[j].Ok?;
  }

  /**
   * The results of a loop that runs from the first element to the last and stops
   * at the first fault it meets: all values when every step completes, otherwise
   * the fault of the first failing step.
   */
  function CollectInOrder<T>(rs: seq<Result<T>>): (r: Result<seq<T>>)
    ensures r.Ok? <==> forall i :: 0 <= i < |rs| ==> rs[i].Ok?
    ensures r.Ok? ==> |r.value| == |rs| && forall i :: 0 <= i < |rs| ==> rs[i] == Ok(r.value[i])
    ensures r.Err? ==> exists i :: 0 <= i < |rs| && rs[i] == Err(r.fault) && forall j :: 0 <= j < i ==> rs[j].Ok?
  {
    if |rs| == 0 then Ok([])
    else if rs[0].Err? then Err(rs[0].fault)
    else
      var rest := CollectInOrder(rs[1..]);
      assert forall i :: 1 <= i < |rs| ==> rs[i] == rs[1..][i - 1];
      if rest.Err? then Err(rest.fault)
      else Ok([rs[0].value] + rest.value)
  }
}
