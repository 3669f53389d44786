/**
  basic_expected: a value or an error.  Errors are std::error_code values, of which 0 tests
  false; an expected can still hold that one when it is built from an enumeration's zero.
  */
module Expecteds {
  type Error = int

  const NO_ERROR: Error := 0

  datatype Expected<+T> = Ok(value: T) | Err(error: Error)

  /** The error that counts as one: NO_ERROR for a value, and for an error that tests false. */
  function ErrorOf<T>(e: Expected<T>): Error {
    match e
    case Ok(_) => NO_ERROR
    case Err(error) => error
  }

  /** e is the error of the first element, in the given order, that has one. */
  ghost predicate IsFirstError<T>(inputs: seq<Expected<T>>, order: seq<nat>, e: Error)
    requires forall k :: 0 <= k < |order| ==> order[k] < |inputs|
  {
    if e == NO_ERROR then forall k :: 0 <= k < |order| ==> ErrorOf(inputs[order[k]]) == NO_ERROR
    else exists k :: 0 <= k < |order| && ErrorOf(inputs[order[k]]) == e &&
           forall j :: 0 <= j < k ==> ErrorOf(inputs[order[j]]) == NO_ERROR
  }

  /** Keeping the error already recorded, or else taking the newcomer's, records the first one. */
  lemma FirstErrorGrows<T>(inputs: seq<Expected<T>>, order: seq<nat>, e: Error, i: nat)
    requires i < |inputs| && (forall k :: 0 <= k < |order| ==> order[k] < |inputs|)
    requires IsFirstError(inputs, order, e)
    ensures IsFirstError(inputs, order + [i], if e == NO_ERROR then ErrorOf(inputs[i]) else e)
  {
    var longer := order + [i];
    if e != NO_ERROR {
      var k :| 0 <= k < |order| && ErrorOf(inputs[order[k]]) == e &&
               forall j :: 0 <= j < k ==> ErrorOf(inputs[order[j]]) == NO_ERROR;
      assert longer[k] == order[k];
    } else {
      assert longer[|order|] == i;
    }
  }

  /** The first error, front to back. */
  function FirstOf<T>(arrivals: seq<Expected<T>>): Error {
    if arrivals == [] then NO_ERROR
    else if ErrorOf(arrivals[0]) != NO_ERROR then ErrorOf(arrivals[0])
    else FirstOf(arrivals[1..])
  }

  lemma {:induction false} FirstOfGrows<T>(arrivals: seq<Expected<T>>, next: Expected<T>)
    ensures FirstOf(arrivals + [next]) == if FirstOf(arrivals) == NO_ERROR then ErrorOf(next) else FirstOf(arrivals)
  {
    if arrivals != [] {
      assert (arrivals + [next])[1..] == arrivals[1..] + [next];
      FirstOfGrows(arrivals[1..], next);
    }
  }

  /** It is an error some arrival holds with none before it, or there is none. */
  lemma {:induction false} FirstOfIsFirst<T>(arrivals: seq<Expected<T>>)
    ensures FirstOf(arrivals) == NO_ERROR <==> forall k :: 0 <= k < |arrivals| ==> ErrorOf(arrivals[k]) == NO_ERROR
    ensures FirstOf(arrivals) != NO_ERROR ==>
              exists k :: 0 <= k < |arrivals| && ErrorOf(arrivals[k]) == FirstOf(arrivals) &&
                forall j :: 0 <= j < k ==> ErrorOf(arrivals[j]) == NO_ERROR
  {
    if arrivals != [] && ErrorOf(arrivals[0]) == NO_ERROR {
      var rest := arrivals[1..];
      FirstOfIsFirst(rest);
      assert forall k :: 1 <= k < |arrivals| ==> arrivals[k] == rest[k - 1];
      if FirstOf(rest) != NO_ERROR {
        var k :| 0 <= k < |rest| && ErrorOf(rest[k]) == FirstOf(rest) &&
                 forall j :: 0 <= j < k ==> ErrorOf(rest[j]) == NO_ERROR;
        assert ErrorOf(arrivals[k + 1]) == FirstOf(arrivals);
      } else {
        assert forall k :: 0 <= k < |rest| ==> ErrorOf(rest[k]) == NO_ERROR;
      }
    }
  }
}
