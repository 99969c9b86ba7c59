/** Go's error values as the reconciliation engine produces and inspects them. */
module Errors {

  datatype Option<+T> = None | Some(value: T)

  /** An error value. `Failure` stands for every plain error (errors.New,
      errorutils.CheckErrorf, and whatever a collaborator returns);
      `RevisionRangeError` is the distinguished type of vcs.go;
      `JoinError` is what errors.Join builds from its non-nil arguments. */
  datatype Error =
    | Failure(msg: string)
    | RevisionRangeError(errorMsg: string)
    | JoinError(errs: seq<Error>)

  datatype Result<+T> = Ok(value: T) | Err(error: Error)

  /** errors.Join(a, b): nil when both are nil, otherwise a join of the non-nil ones
      (even a single non-nil error is wrapped, as in Go). */
  function Join(a: Option<Error>, b: Option<Error>): (r: Option<Error>)
    ensures r == None <==> a == None && b == None
    ensures r.Some? ==> r.value.JoinError?
    ensures a.Some? ==> r.Some? && a.value in r.value.errs
    ensures b.Some? ==> r.Some? && b.value in r.value.errs
    ensures r.Some? ==> forall e :: e in r.value.errs ==> Some(e) == a || Some(e) == b
  {
    match (a, b)
    case (None, None) => None
    case (Some(x), None) => Some(JoinError([x]))
    case (None, Some(y)) => Some(JoinError([y]))
    case (Some(x), Some(y)) => Some(JoinError([x, y]))
  }

  /** errors.As(err, &RevisionRangeError{}): the error, or some error it wraps, is a RevisionRangeError. */
  predicate AsRevisionRange(e: Error)
    decreases e
  {
    match e
    case Failure(_) => false
    case RevisionRangeError(_) => true
    case JoinError(errs) => exists i :: 0 <= i < |errs| && AsRevisionRange(errs[i])
  }

  /** Every error reachable from `e` by unwrapping joins, `e` included: the tree errors.As walks. */
  function Wrapped(e: Error): (r: set<Error>)
    decreases e
    ensures e in r
  {
    match e
    case JoinError(errs) => {e} + (set i, x | 0 <= i < |errs| && x in Wrapped(errs[i]) :: x)
    case _ => {e}
  }

  /** errors.As succeeds exactly when a RevisionRangeError is somewhere in the tree it walks. */
  lemma {:induction false} AsRevisionRangeFindsWrapped(e: Error)
    decreases e
    ensures AsRevisionRange(e) <==> exists x :: x in Wrapped(e) && x.RevisionRangeError?
  {
    match e
    case Failure(_) =>
    case RevisionRangeError(_) =>
    case JoinError(errs) =>
      if AsRevisionRange(e) {
        var i :| 0 <= i < |errs| && AsRevisionRange(errs[i]);
        AsRevisionRangeFindsWrapped(errs[i]);
        var x :| x in Wrapped(errs[i]) && x.RevisionRangeError?;
        assert x in Wrapped(e);
      }
      if exists x :: x in Wrapped(e) && x.RevisionRangeError? {
        var x :| x in Wrapped(e) && x.RevisionRangeError?;
        assert x != e;
        var i :| 0 <= i < |errs| && x in Wrapped(errs[i]);
        AsRevisionRangeFindsWrapped(errs[i]);
      }
  }

  /** Joining never hides a RevisionRangeError from errors.As. */
  lemma JoinKeepsRevisionRange(a: Option<Error>, b: Option<Error>)
    requires (a.Some? && AsRevisionRange(a.value)) || (b.Some? && AsRevisionRange(b.value))
    ensures Join(a, b).Some? && AsRevisionRange(Join(a, b).value)
  {
    var j := Join(a, b).value;
    if a.Some? && AsRevisionRange(a.value) {
      assert j.errs[0] == a.value;
    } else if a.Some? {
      assert j.errs[1] == b.value;
    } else {
      assert j.errs[0] == b.value;
    }
  }

  /** Nor does joining invent one: errors.As finds a RevisionRangeError in a join only when one
      of the joined errors holds it. */
  lemma JoinAddsNoRevisionRange(a: Option<Error>, b: Option<Error>)
    requires Join(a, b).Some? && AsRevisionRange(Join(a, b).value)
    ensures (a.Some? && AsRevisionRange(a.value)) || (b.Some? && AsRevisionRange(b.value))
  {
    var errs := Join(a, b).value.errs;
    var i :| 0 <= i < |errs| && AsRevisionRange(errs[i]);
    assert errs[i] in errs;
  }
}
