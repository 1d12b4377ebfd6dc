/** Error classification: how a handler tells the consumer to skip a message. */
module KafkaErrors {

  import opened Wrappers

  datatype Kind = NonRetryable | Retryable

  /**
   A Go error as errors.Is sees it: the package's two sentinels, an error of no interest, a classified error,
   fmt.Errorf with one %w, and fmt.Errorf with several.
   */
  datatype Error =
    | Sentinel(kind: Kind)
    | Plain(text: string)
    | Classified(kind: Kind, err: Error)
    | Wrapped(err: Error)
    | Joined(errs: seq<Error>)

  /** Classifying nil gives nil. */
  function Classify(err: Option<Error>, kind: Kind): Option<Error> {
    match err
    case None => None
    case Some(e) => Some(Classified(kind, e))
  }

  /** errors.Is against a sentinel, with the classified error's own Is and Unwrap. */
  predicate Is(err: Error, kind: Kind) {
    match err
    case Sentinel(k) => k == kind
    case Plain(_) => false
    case Classified(k, e) => k == kind || Is(e, kind)
    case Wrapped(e) => Is(e, kind)
    case Joined(errs) => exists e | e in errs :: Is(e, kind)
  }

  /** The error reached by unwrapping along a path; the numbers choose among the errors of a Joined. */
  function At(err: Error, path: seq<nat>): Option<Error>
    decreases |path|
  {
    if path == [] then Some(err)
    else match err
         case Classified(_, e) => At(e, path[1..])
         case Wrapped(e) => At(e, path[1..])
         case Joined(errs) => if path[0] < |errs| then At(errs[path[0]], path[1..]) else None
         case _ => None
  }

  predicate Carries(err: Error, kind: Kind) {
    (err.Sentinel? || err.Classified?) && err.kind == kind
  }

  ghost predicate CarriesWithin(err: Error, kind: Kind) {
    exists path: seq<nat> :: At(err, path).Some? && Carries(At(err, path).value, kind)
  }

  lemma {:induction false} IsFindsPath(err: Error, kind: Kind) returns (path: seq<nat>)
    requires Is(err, kind)
    ensures At(err, path).Some? && Carries(At(err, path).value, kind)
  {
    if Carries(err, kind) {
      path := [];
    } else {
      match err {
        case Classified(_, e) =>
          var p := IsFindsPath(e, kind);
          path := [0] + p;
          assert path[1..] == p;
        case Wrapped(e) =>
          var p := IsFindsPath(e, kind);
          path := [0] + p;
          assert path[1..] == p;
        case Joined(errs) =>
          var i :| 0 <= i < |errs| && Is(errs[i], kind);
          var p := IsFindsPath(errs[i], kind);
          path := [i] + p;
          assert path[1..] == p;
      }
    }
  }

  lemma {:induction false} PathMakesIs(err: Error, kind: Kind, path: seq<nat>)
    requires At(err, path).Some? && Carries(At(err, path).value, kind)
    ensures Is(err, kind)
    decreases |path|
  {
    if path != [] {
      match err {
        case Classified(_, e) => PathMakesIs(e, kind, path[1..]);
        case Wrapped(e) => PathMakesIs(e, kind, path[1..]);
        case Joined(errs) =>
          PathMakesIs(errs[path[0]], kind, path[1..]);
          assert errs[path[0]] in errs;
      }
    }
  }

  /**
   An error is recognised exactly when its kind was attached somewhere inside it, however deep and under whatever
   wrapping.
   */
  lemma IsSeesThroughWrapping(err: Error, kind: Kind)
    ensures Is(err, kind) <==> CarriesWithin(err, kind)
  {
    if Is(err, kind) {
      var path := IsFindsPath(err, kind);
    }
    if CarriesWithin(err, kind) {
      var path: seq<nat> :| At(err, path).Some? && Carries(At(err, path).value, kind);
      PathMakesIs(err, kind, path);
    }
  }

  /** Wrapping, and even classifying again as retryable, does not take the mark away. */
  lemma MarkSurvives(err: Error, others: seq<Error>, i: nat)
    requires Is(err, NonRetryable) && i < |others| && others[i] == err
    ensures Is(Wrapped(err), NonRetryable)
    ensures Is(Joined(others), NonRetryable)
    ensures Classify(Some(err), Retryable).Some? && Is(Classify(Some(err), Retryable).value, NonRetryable)
  {
    assert others[i] in others;
  }
}
