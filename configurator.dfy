/**
 * The configurator's generic slice helpers (configurator/utils/slices.go) and the mapping
 * of storage errors to HTTP statuses (configurator/router/router.go).
 */
module ConfiguratorSlices {
  /** The elements of `s` that `include` accepts, in their order. */
  function Kept<T>(s: seq<T>, keep: T -> bool): seq<T>
    decreases |s|
  {
    if s == [] then [] else Kept(s[..|s| - 1], keep) + (if keep(s[|s| - 1]) then [s[|s| - 1]] else [])
  }

  /**
   * `Kept` keeps exactly the accepted elements: never more than the input, each one accepted
   * and taken from the input, every accepted element of the input present, and as many copies
   * of each value as the input has accepted copies.
   */
  lemma {:induction false} KeptExactly<T>(s: seq<T>, keep: T -> bool)
    ensures |Kept(s, keep)| <= |s|
    ensures forall x :: x in Kept(s, keep) <==> x in s && keep(x)
    ensures forall x :: keep(x) ==> multiset(Kept(s, keep))[x] == multiset(s)[x]
    ensures forall x :: !keep(x) ==> multiset(Kept(s, keep))[x] == 0
    decreases |s|
  {
    if s != [] {
      var init := s[..|s| - 1];
      KeptExactly(init, keep);
      assert s == init + [s[|s| - 1]];
    }
  }

  /** Everything accepted keeps the whole input; nothing accepted gives the empty slice. */
  lemma {:induction false} KeptExtremes<T>(s: seq<T>, keep: T -> bool)
    ensures (forall i :: 0 <= i < |s| ==> keep(s[i])) ==> Kept(s, keep) == s
    ensures (forall i :: 0 <= i < |s| ==> !keep(s[i])) ==> Kept(s, keep) == []
    decreases |s|
  {
    if s != [] {
      var init := s[..|s| - 1];
      KeptExtremes(init, keep);
      assert s == init + [s[|s| - 1]];
    }
  }

  /** `Filter`: appends each accepted element, in order. */
  method Filter<T>(ss: seq<T>, keep: T -> bool) returns (filtered: seq<T>)
    ensures filtered == Kept(ss, keep)
    ensures |filtered| <= |ss| && forall x :: x in filtered <==> x in ss && keep(x)
  {
    filtered := [];
    for i := 0 to |ss|
      invariant filtered == Kept(ss[..i], keep)
    {
      assert ss[..i + 1][..i] == ss[..i];
      if keep(ss[i]) {
        filtered := filtered + [ss[i]];
      }
    }
    assert ss[..|ss|] == ss;
    KeptExactly(ss, keep);
  }

  /** `Map`: the mapper applied to each element, in order. */
  method Map<T, U>(ss: seq<T>, mapper: T -> U) returns (mapped: seq<U>)
    ensures |mapped| == |ss| && forall i :: 0 <= i < |ss| ==> mapped[i] == mapper(ss[i])
  {
    mapped := [];
    for i := 0 to |ss|
      invariant |mapped| == i && forall k :: 0 <= k < i ==> mapped[k] == mapper(ss[k])
    {
      mapped := mapped + [mapper(ss[i])];
    }
  }
}

module ConfiguratorRouter {
  import opened Wrappers

  /** An error value: the storage's not-found sentinel, any other error, or one wrapping another with added text. */
  datatype Error = NotFound(text: string) | Failure(text: string) | Wrapped(text: string, cause: Error)

  /** `errors.Is(err, database.ErrNotFound)`: the error or one it wraps is the sentinel. */
  predicate IsNotFound(e: Error) {
    match e
    case NotFound(_) => true
    case Failure(_) => false
    case Wrapped(_, cause) => IsNotFound(cause)
  }

  /** The text `Error()` returns. */
  function Message(e: Error): string {
    e.text
  }

  const StatusOK := 200
  const StatusNotFound := 404
  const StatusInternalServerError := 500

  /** `statusAndError`: no error is 200; not-found, however deeply wrapped, is 404; anything else 500; the error passes through. */
  function StatusAndError(err: Option<Error>): (r: (int, Option<Error>))
    ensures r.1 == err
    ensures err == None <==> r.0 == StatusOK
    ensures r.0 in {StatusOK, StatusNotFound, StatusInternalServerError}
  {
    match err
    case None => (StatusOK, None)
    case Some(e) => if IsNotFound(e) then (StatusNotFound, err) else (StatusInternalServerError, err)
  }

  /** Wrapping an error never changes its status, and the sentinel itself is 404. */
  lemma WrappingKeepsStatus(e: Error, text: string)
    ensures StatusAndError(Some(Wrapped(text, e))).0 == StatusAndError(Some(e)).0
    ensures StatusAndError(Some(NotFound(text))).0 == StatusNotFound
    ensures StatusAndError(Some(Failure(text))).0 == StatusInternalServerError
  {
  }

  /** `errorJSON`: the message under the single key "error". */
  function ErrorJson(e: Error): (r: map<string, string>)
    ensures r.Keys == {"error"} && r["error"] == Message(e)
  {
    map["error" := Message(e)]
  }
}
