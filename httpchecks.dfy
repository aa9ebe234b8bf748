/** `httpCheck` and `httpChecks` of net.js: a liveness check maps a
    destination to itself when the GET answers exactly 200 and to "" on any
    other status or error; the list version keeps the reached destinations in
    input order. The HTTP request itself is not part of this model:
    `answer(i)` is what the request for the i-th destination reports. */
module HttpChecks {

  /** What a GET request reports: a response with its status, or an error. */
  datatype HttpAnswer = Response(statusCode: int) | RequestError

  /** `httpCheck(destination)`: it never rejects; it resolves to the
      destination exactly when the status is 200, and to "" otherwise. */
  function HttpCheck(destination: string, answer: HttpAnswer): (r: string)
    ensures answer == Response(200) ==> r == destination
    ensures answer != Response(200) ==> r == ""
  {
    match answer
    case Response(status) => if status == 200 then destination else ""
    case RequestError => ""
  }

  /** The non-empty strings of `s`, in order. */
  function KeepNonEmpty(s: seq<string>): (r: seq<string>)
    ensures |r| <= |s|
    ensures forall k :: 0 <= k < |r| ==> r[k] != ""
  {
    if s == [] then []
    else
      var init := s[..|s| - 1];
      var last := s[|s| - 1];
      KeepNonEmpty(init) + (if last != "" then [last] else [])
  }

  /** The filter keeps every non-empty string of its input with its
      multiplicity and drops every empty one. */
  lemma {:induction false} KeepNonEmptyContents(s: seq<string>)
    ensures multiset(KeepNonEmpty(s)) == multiset(s)[[] := 0]
    ensures forall x :: x in KeepNonEmpty(s) <==> x in s && x != ""
  {
    if s != [] {
      var init := s[..|s| - 1];
      var last := s[|s| - 1];
      assert s == init + [last];
      KeepNonEmptyContents(init);
      assert multiset(s) == multiset(init) + multiset{last};
      forall x
        ensures x in KeepNonEmpty(s) <==> x in s && x != ""
      {
        assert x in multiset(KeepNonEmpty(s)) <==> x in multiset(s)[[] := 0];
      }
    }
  }

  /** Filtering distributes over concatenation: the order of the input is the
      order of the output. */
  lemma {:induction false} KeepNonEmptyAppend(a: seq<string>, b: seq<string>)
    ensures KeepNonEmpty(a + b) == KeepNonEmpty(a) + KeepNonEmpty(b)
  {
    if b == [] {
      assert a + b == a;
    } else {
      var init := b[..|b| - 1];
      var last := b[|b| - 1];
      assert b == init + [last];
      assert (a + b)[..|a + b| - 1] == a + init;
      assert (a + b)[|a + b| - 1] == last;
      KeepNonEmptyAppend(a, init);
    }
  }

  /** What `Promise.all` resolves to: one check result per destination, in
      input order. */
  function CheckAll(destinations: seq<string>, answer: nat -> HttpAnswer): (checked: seq<string>)
    ensures |checked| == |destinations|
    ensures forall i :: 0 <= i < |destinations| ==> checked[i] == HttpCheck(destinations[i], answer(i))
  {
    seq(|destinations|, i requires 0 <= i < |destinations| => HttpCheck(destinations[i], answer(i)))
  }

  /** The `Promise.all` callback of `httpChecks`: push every non-empty check
      result, in order. */
  method KeepReached(okDestinations: seq<string>) returns (finalDestinations: seq<string>)
    ensures finalDestinations == KeepNonEmpty(okDestinations)
  {
    finalDestinations := [];
    for i := 0 to |okDestinations|
      invariant finalDestinations == KeepNonEmpty(okDestinations[..i])
    {
      assert okDestinations[..i + 1] == okDestinations[..i] + [okDestinations[i]];
      if |okDestinations[i]| > 0 {
        finalDestinations := finalDestinations + [okDestinations[i]];
      }
    }
    assert okDestinations[..|okDestinations|] == okDestinations;
  }

  /** `httpChecks(destinations)`: one check per destination, then only the
      non-empty results, in input order; unreached destinations are left out. */
  method HttpChecks(destinations: seq<string>, answer: nat -> HttpAnswer) returns (finalDestinations: seq<string>)
    ensures finalDestinations == KeepNonEmpty(CheckAll(destinations, answer))
  {
    var promises := [];
    for i := 0 to |destinations|
      invariant promises == CheckAll(destinations[..i], answer)
    {
      promises := promises + [HttpCheck(destinations[i], answer(i))];
    }
    assert destinations[..|destinations|] == destinations;
    finalDestinations := KeepReached(promises);
  }

  /** A destination is in the result exactly when it is non-empty and the
      request for one of its occurrences answered 200; the result is no longer
      than the input. */
  lemma ReachedDestinations(destinations: seq<string>, answer: nat -> HttpAnswer, d: string)
    ensures |KeepNonEmpty(CheckAll(destinations, answer))| <= |destinations|
    ensures d in KeepNonEmpty(CheckAll(destinations, answer)) <==>
      d != "" && exists i :: 0 <= i < |destinations| && destinations[i] == d && answer(i) == Response(200)
  {
    var checked := CheckAll(destinations, answer);
    KeepNonEmptyContents(checked);
    if d in KeepNonEmpty(checked) {
      var i :| 0 <= i < |checked| && checked[i] == d;
      assert destinations[i] == d && answer(i) == Response(200);
    }
    if d != "" && exists i :: 0 <= i < |destinations| && destinations[i] == d && answer(i) == Response(200) {
      var i :| 0 <= i < |destinations| && destinations[i] == d && answer(i) == Response(200);
      assert checked[i] == d;
    }
  }
}
