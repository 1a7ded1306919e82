/**
 * The storage service's routing helpers (storage/router/routes.go): the path parameter
 * taken from a request path by its pattern, the start time read from a run's name, and
 * the name rules of the create and update handlers. The executor's router
 * (executor/router/routes.go) carries the same `extractPathParam`, modelled once here.
 */
module StorageRoutes {
  import opened Wrappers
  import opened Text

  /** Removes every leading `c`. */
  function TrimLeftChar(s: string, c: char): (r: string)
    ensures |r| <= |s| && r == s[|s| - |r|..]
    ensures forall k :: 0 <= k < |s| - |r| ==> s[k] == c
    ensures r == [] || r[0] != c
  {
    if s != [] && s[0] == c then TrimLeftChar(s[1..], c) else s
  }

  /** Removes every trailing `c`. */
  function TrimRightChar(s: string, c: char): (r: string)
    ensures |r| <= |s| && r == s[..|r|]
    ensures forall k :: |r| <= k < |s| ==> s[k] == c
    ensures r == [] || r[|r| - 1] != c
  {
    if s != [] && s[|s| - 1] == c then TrimRightChar(s[..|s| - 1], c) else s
  }

  /** Go `strings.Trim(s, string(c))`. */
  function TrimChar(s: string, c: char): string {
    TrimRightChar(TrimLeftChar(s, c), c)
  }

  /** A pattern segment naming a parameter: it starts with "{" and ends with "}". */
  predicate IsPlaceholder(part: string) {
    StartsWith(part, "{") && EndsWith(part, "}")
  }

  /** The loop of `extractPathParam` from pattern segment `i`. */
  function FindParam(patternParts: seq<string>, pathParts: seq<string>, i: nat): string
    decreases |patternParts| - i
  {
    if i >= |patternParts| then ""
    else if IsPlaceholder(patternParts[i]) && i < |pathParts| then pathParts[i]
    else FindParam(patternParts, pathParts, i + 1)
  }

  function PathParts(path: string): seq<string> {
    Split(TrimChar(path, '/'), '/')
  }

  /** `extractPathParam`: the path segment at the position of a placeholder of the pattern. */
  function ExtractPathParam(path: string, pattern: string): string {
    FindParam(PathParts(pattern), PathParts(path), 0)
  }

  /** The index of the first placeholder segment at or after `i`, if any. */
  function FirstPlaceholder(parts: seq<string>, i: nat): (r: Option<nat>)
    ensures r.Some? ==> i <= r.value < |parts| && IsPlaceholder(parts[r.value])
    ensures r.Some? ==> forall k :: i <= k < r.value ==> !IsPlaceholder(parts[k])
    ensures r.None? ==> forall k :: i <= k < |parts| ==> !IsPlaceholder(parts[k])
    decreases |parts| - i
  {
    if i >= |parts| then None
    else if IsPlaceholder(parts[i]) then Some(i)
    else FirstPlaceholder(parts, i + 1)
  }

  /**
   * The search settles on the first placeholder: it yields the path segment at that position
   * when the path has one there, and "" when it does not or when the pattern has no
   * placeholder. The result is therefore "" or one of the path's segments.
   */
  lemma {:induction false} FindParamFirst(patternParts: seq<string>, pathParts: seq<string>, i: nat)
    ensures var r := FindParam(patternParts, pathParts, i);
      var first := FirstPlaceholder(patternParts, i);
      (first.None? ==> r == "") &&
      (first.Some? && first.value < |pathParts| ==> r == pathParts[first.value]) &&
      (first.Some? && first.value >= |pathParts| ==> r == "") &&
      (r == "" || r in pathParts)
    decreases |patternParts| - i
  {
    if i < |patternParts| {
      FindParamFirst(patternParts, pathParts, i + 1);
      if IsPlaceholder(patternParts[i]) && i >= |pathParts| {
        LaterPlaceholdersMissing(patternParts, pathParts, i + 1);
      }
    }
  }

  /** Past the end of the path, every later placeholder is past it too, so nothing is found. */
  lemma {:induction false} LaterPlaceholdersMissing(patternParts: seq<string>, pathParts: seq<string>, i: nat)
    requires i >= |pathParts|
    ensures FindParam(patternParts, pathParts, i) == ""
    decreases |patternParts| - i
  {
    if i < |patternParts| {
      LaterPlaceholdersMissing(patternParts, pathParts, i + 1);
    }
  }

  /** A pattern without a placeholder never yields a parameter. */
  lemma NoPlaceholderNoParam(path: string, pattern: string)
    requires forall k :: 0 <= k < |PathParts(pattern)| ==> !IsPlaceholder(PathParts(pattern)[k])
    ensures ExtractPathParam(path, pattern) == ""
  {
    var patternParts, pathParts := PathParts(pattern), PathParts(path);
    FindParamFirst(patternParts, pathParts, 0);
  }

  lemma {:induction false} TrimLeftNone(s: string, c: char)
    requires s == [] || s[0] != c
    ensures TrimLeftChar(s, c) == s
  {
  }

  /** Trimming "/" off "/" + `s` gives `s` back when `s` neither starts nor ends with "/". */
  lemma TrimLeadingSlash(s: string)
    requires s != [] && s[0] != '/' && s[|s| - 1] != '/'
    ensures TrimChar("/" + s, '/') == s
  {
    assert ("/" + s)[1..] == s;
    assert TrimLeftChar("/" + s, '/') == TrimLeftChar(s, '/');
    TrimLeftNone(s, '/');
  }

  /** Splitting the trimmed text of `/` + joined segments gives the segments back, when the first and last are not empty. */
  lemma SegmentsBack(segments: seq<string>)
    requires |segments| >= 1 && segments[0] != [] && segments[|segments| - 1] != []
    requires forall k :: 0 <= k < |segments| ==> '/' !in segments[k]
    ensures PathParts("/" + Join(segments, '/')) == segments
  {
    var joined := Join(segments, '/');
    SplitJoin(segments, '/');
    JoinLast(segments, '/');
    assert joined[0] == segments[0][0] by {
      if |segments| > 1 {
        assert joined == segments[0] + "/" + Join(segments[1..], '/');
      }
    }
    TrimLeadingSlash(joined);
  }

  /** A join ends with its last piece's last character. */
  lemma {:induction false} JoinLast(parts: seq<string>, sep: char)
    requires |parts| >= 1 && parts[|parts| - 1] != []
    ensures var j := Join(parts, sep); j != [] && j[|j| - 1] == parts[|parts| - 1][|parts[|parts| - 1]| - 1]
    decreases |parts|
  {
    if |parts| > 1 {
      JoinLast(parts[1..], sep);
    }
  }

  /** The first placeholder is at `n` when `n` is one and none comes before it. */
  lemma FirstPlaceholderAt(parts: seq<string>, n: nat)
    requires n < |parts| && IsPlaceholder(parts[n])
    requires forall k :: 0 <= k < n ==> !IsPlaceholder(parts[k])
    ensures FirstPlaceholder(parts, 0) == Some(n)
  {
  }

  /** Fixed segments followed by one more: non-empty and free of "/" when each piece is. */
  lemma AppendedSegments(fixed: seq<string>, last: string)
    requires forall k :: 0 <= k < |fixed| ==> fixed[k] != [] && '/' !in fixed[k]
    requires last != [] && '/' !in last
    ensures var s := fixed + [last]; |s| >= 1 && s[0] != [] && s[|s| - 1] != [] && forall k :: 0 <= k < |s| ==> '/' !in s[k]
  {
  }

  /**
   * A pattern whose segments are fixed words followed by a placeholder, and a path with the
   * same words followed by a value, yield the value: `/storage/programs/{name}` against
   * `/storage/programs/<name>` gives the name.
   */
  lemma ParamAfterFixedSegments(fixed: seq<string>, value: string, placeholder: string)
    requires forall k :: 0 <= k < |fixed| ==> fixed[k] != [] && '/' !in fixed[k] && !IsPlaceholder(fixed[k])
    requires value != [] && '/' !in value
    requires IsPlaceholder(placeholder) && '/' !in placeholder
    ensures ExtractPathParam("/" + Join(fixed + [value], '/'), "/" + Join(fixed + [placeholder], '/')) == value
  {
    var pathSegments := fixed + [value];
    var patternSegments := fixed + [placeholder];
    assert placeholder != [] by {
      assert StartsWith(placeholder, "{");
    }
    AppendedSegments(fixed, value);
    AppendedSegments(fixed, placeholder);
    SegmentsBack(pathSegments);
    SegmentsBack(patternSegments);
    FirstPlaceholderAt(patternSegments, |fixed|);
    FindParamFirst(patternSegments, pathSegments, 0);
    assert pathSegments[|fixed|] == value;
  }

  /**
   * `startTimeFromName`: the Unix time after the single "@" of a run's name, read by the
   * RFC 3339 (section 5.6 date-time) parser `parse`; 0 when the name does not have exactly
   * one "@" or the text after it does not parse.
   */
  function StartTimeFromName(name: string, parse: string -> Option<int>): (r: int)
    ensures |Split(name, '@')| != 2 ==> r == 0
    ensures |Split(name, '@')| == 2 ==> r == (match parse(Split(name, '@')[1]) case Some(t) => t case None => 0)
  {
    var parts := Split(name, '@');
    if |parts| == 2 then
      match parse(parts[1])
      case Some(t) => t
      case None => 0
    else 0
  }

  /** A run named `<program>@<timestamp>`, with "@" in neither part, gives back the time the timestamp denotes. */
  lemma StartTimeRoundTrip(program: string, stamp: string, parse: string -> Option<int>, t: int)
    requires '@' !in program && '@' !in stamp && parse(stamp) == Some(t)
    ensures StartTimeFromName(program + "@" + stamp, parse) == t
  {
    SplitJoin([program, stamp], '@');
    assert Join([program, stamp], '@') == program + "@" + stamp;
  }

  /** A name with no "@" has no start time. */
  lemma NoStampNoTime(name: string, parse: string -> Option<int>)
    requires '@' !in name
    ensures StartTimeFromName(name, parse) == 0
  {
    SplitSingle(name, '@');
  }

  const StatusOK := 200
  const StatusCreated := 201
  const StatusBadRequest := 400
  const StatusNotFound := 404
  const StatusConflict := 409

  /** The create handler: bad JSON and an empty name are 400, a failed store 409, else 201. `stored` is the store's verdict. */
  function CreateStatus(decoded: bool, programName: string, stored: bool): (r: int)
    ensures !decoded ==> r == StatusBadRequest
    ensures decoded && programName == "" ==> r == StatusBadRequest
    ensures decoded && programName != "" && !stored ==> r == StatusConflict
    ensures r == StatusCreated <==> decoded && programName != "" && stored
  {
    if !decoded then StatusBadRequest
    else if programName == "" then StatusBadRequest
    else if !stored then StatusConflict
    else StatusCreated
  }

  /**
   * The update handler: bad JSON is 400, a program the store does not have is 404, else 200;
   * the stored and returned program carries the path's name, whatever name the body gives.
   */
  function UpdateOutcome(pathName: string, bodyName: string, decoded: bool, stored: bool): (r: (int, string))
    ensures r.0 == StatusOK <==> decoded && stored
    ensures !decoded ==> r.0 == StatusBadRequest
    ensures decoded && !stored ==> r.0 == StatusNotFound
    ensures decoded ==> r.1 == pathName
  {
    if !decoded then (StatusBadRequest, bodyName)
    else if !stored then (StatusNotFound, pathName)
    else (StatusOK, pathName)
  }
}
