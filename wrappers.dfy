/** Option and Result: the error paths of the Python code (a `None` return, an exception that
    escapes to the caller) are modelled as values instead of as control flow. */
module Wrappers {

  datatype Option<+T> = None | Some(value: T)

  /** The Python exceptions that can escape from the modelled functions. */
  datatype Error =
    | ZeroDivision   // ZeroDivisionError
    | IndexError     // IndexError (e.g. `coords[0]` of an empty list)
    | ValueError     // ValueError (e.g. `int('', 16)`, `min([])`, `np.linspace(0, 1, -1)`)
    | TypeError      // TypeError (e.g. `len()` of a number)

  datatype Result<+T> = Ok(value: T) | Err(error: Error)

  /** A loop that appends one result per element and stops at the first exception: the
      values of all results, or the first error. */
  function Collect<T>(rs: seq<Result<T>>): (r: Result<seq<T>>)
    ensures r.Ok? ==> |r.value| == |rs|
  {
    if rs == [] then Ok([])
    else
      var prefix := Collect(rs[..|rs| - 1]);
      if prefix.Err? then prefix
      else if rs[|rs| - 1].Err? then Err(rs[|rs| - 1].error)
      else Ok(prefix.value + [rs[|rs| - 1].value])
  }

  /** Collecting succeeds exactly when every result does, and then keeps every value in order. */
  lemma {:induction false} CollectEntries<T>(rs: seq<Result<T>>)
    ensures Collect(rs).Ok? <==> forall i :: 0 <= i < |rs| ==> rs[i].Ok?
    ensures Collect(rs).Ok? ==> forall i :: 0 <= i < |rs| ==> Collect(rs).value[i] == rs[i].value
  {
    if rs != [] {
      var n := |rs| - 1;
      CollectEntries(rs[..n]);
      assert forall i :: 0 <= i < n ==> rs[..n][i] == rs[i];
    }
  }

  /** A failure is the error of the first failing result. */
  lemma {:induction false} CollectFirstError<T>(rs: seq<Result<T>>, k: nat)
    requires k < |rs| && rs[k].Err?
    requires forall j :: 0 <= j < k ==> rs[j].Ok?
    ensures Collect(rs) == Err(rs[k].error)
  {
    var n := |rs| - 1;
    if k < n {
      assert forall j :: 0 <= j < k ==> rs[..n][j] == rs[j];
      CollectFirstError(rs[..n], k);
    } else {
      CollectEntries(rs[..n]);
      assert forall j :: 0 <= j < n ==> rs[..n][j] == rs[j];
    }
  }

  /** The values before the first error: what such a loop has appended when it stops. */
  function OkPrefix<T>(rs: seq<Result<T>>): (vs: seq<T>)
    ensures |vs| <= |rs|
  {
    if rs == [] || rs[0].Err? then [] else [rs[0].value] + OkPrefix(rs[1..])
  }

  /** If the first k results succeed and result k fails (or there is none), the prefix holds
      exactly their k values. */
  lemma {:induction false} OkPrefixAt<T>(rs: seq<Result<T>>, k: nat)
    requires k <= |rs| && (k < |rs| ==> rs[k].Err?)
    requires forall j :: 0 <= j < k ==> rs[j].Ok?
    ensures |OkPrefix(rs)| == k
    ensures forall j :: 0 <= j < k ==> OkPrefix(rs)[j] == rs[j].value
  {
    if k > 0 {
      assert forall j :: 0 <= j < k - 1 ==> rs[1..][j] == rs[j + 1];
      OkPrefixAt(rs[1..], k - 1);
    }
  }

  /** One step of a loop that appends the values of rs in order and stops at the first
      error: a success extends the collected prefix, an error is the loop's outcome. */
  lemma CollectStep<T>(rs: seq<Result<T>>, i: nat, vs: seq<T>)
    requires i < |rs| && Collect(rs[..i]) == Ok(vs)
    ensures rs[i].Ok? ==> Collect(rs[..i + 1]) == Ok(vs + [rs[i].value])
    ensures rs[i].Err? ==> Collect(rs) == Err(rs[i].error) && OkPrefix(rs) == vs
  {
    if rs[i].Ok? {
      assert rs[..i + 1][..i] == rs[..i];
      assert rs[..i + 1][i] == rs[i];
    } else {
      CollectEntries(rs[..i]);
      assert forall j :: 0 <= j < i ==> rs[..i][j] == rs[j];
      CollectFirstError(rs, i);
      OkPrefixAt(rs, i);
      assert forall j :: 0 <= j < i ==> OkPrefix(rs)[j] == vs[j];
    }
  }

  /** The end of such a loop: every value collected, and they are the whole prefix. */
  lemma CollectDone<T>(rs: seq<Result<T>>, vs: seq<T>)
    requires Collect(rs[..|rs|]) == Ok(vs)
    ensures Collect(rs) == Ok(vs) && OkPrefix(rs) == vs
  {
    assert rs[..|rs|] == rs;
    CollectEntries(rs);
    OkPrefixAt(rs, |rs|);
  }
}
