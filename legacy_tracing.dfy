/**
 * The `excluded_urls` string `setup_tracing` hands to the FastAPI
 * instrumentation: the excluded endpoints joined with commas, or the empty
 * string when there are none.
 */
module LegacyTracing {
  import opened Http

  /** The elements' total length. */
  function TotalLength(parts: seq<string>): nat
  {
    if |parts| == 0 then 0 else |parts[0]| + TotalLength(parts[1..])
  }

  /**
   * `",".join(parts)`: a single element comes back unchanged, and the result
   * holds every element plus one comma between each pair of neighbours.
   */
  function Join(parts: seq<string>): (s: string)
    ensures |parts| == 0 ==> s == ""
    ensures |parts| == 1 ==> s == parts[0]
    ensures |parts| > 0 ==> |s| == TotalLength(parts) + |parts| - 1
    ensures |parts| > 0 ==> s[..|parts[0]|] == parts[0]
  {
    if |parts| == 0 then ""
    else if |parts| == 1 then parts[0]
    else parts[0] + "," + Join(parts[1..])
  }

  /** `s.split(",")`: the pieces between commas, so `""` splits into `[""]`. */
  function Split(s: string): (parts: seq<string>)
    ensures |parts| >= 1
  {
    if |s| == 0 then [""]
    else
      var rest := Split(s[1..]);
      if s[0] == ',' then [""] + rest
      else [[s[0]] + rest[0]] + rest[1..]
  }

  predicate NoComma(s: string)
  {
    forall i :: 0 <= i < |s| ==> s[i] != ','
  }

  /** `",".join(excluded_endpoints) if excluded_endpoints else ""`. */
  function ExcludedUrls(excludedEndpoints: Option<seq<string>>): (s: string)
    ensures excludedEndpoints.None? || excludedEndpoints.value == [] ==> s == ""
    ensures excludedEndpoints.Some? && |excludedEndpoints.value| == 1 ==> s == excludedEndpoints.value[0]
    ensures excludedEndpoints.Some? && |excludedEndpoints.value| > 1 ==>
      s == excludedEndpoints.value[0] + "," + Join(excludedEndpoints.value[1..])
  {
    if excludedEndpoints.Some? && |excludedEndpoints.value| > 0 then Join(excludedEndpoints.value) else ""
  }

  /** A comma-free prefix joins onto the first piece of what follows it. */
  lemma {:induction false} SplitPrefix(a: string, tail: string)
    requires NoComma(a)
    ensures Split(a + tail) == [a + Split(tail)[0]] + Split(tail)[1..]
    decreases |a|
  {
    var parts := Split(tail);
    if |a| == 0 {
      assert a + tail == tail && a + parts[0] == parts[0];
      assert [parts[0]] + parts[1..] == parts;
    } else {
      assert (a + tail)[1..] == a[1..] + tail;
      SplitPrefix(a[1..], tail);
      assert [a[0]] + (a[1..] + Split(tail)[0]) == a + Split(tail)[0];
    }
  }

  /** Splitting the join of comma-free elements gives the elements back, in order. */
  lemma {:induction false} SplitJoin(parts: seq<string>)
    requires |parts| > 0
    requires forall i :: 0 <= i < |parts| ==> NoComma(parts[i])
    ensures Split(Join(parts)) == parts
  {
    if |parts| == 1 {
      SplitPrefix(parts[0], "");
      assert parts[0] + "" == parts[0];
    } else {
      var rest := Join(parts[1..]);
      SplitJoin(parts[1..]);
      assert parts[0] + "," + rest == parts[0] + ("," + rest);
      SplitPrefix(parts[0], "," + rest);
      assert ("," + rest)[1..] == rest;
      assert parts[0] + "" == parts[0];
      assert [parts[0]] + parts[1..] == parts;
    }
  }

  /** `str.split(",")` of the `excluded_urls` string gives the configured endpoints back. */
  lemma ExcludedUrlsRoundTrip(excludedEndpoints: seq<string>)
    requires |excludedEndpoints| > 0
    requires forall i :: 0 <= i < |excludedEndpoints| ==> NoComma(excludedEndpoints[i])
    ensures Split(ExcludedUrls(Some(excludedEndpoints))) == excludedEndpoints
  {
    SplitJoin(excludedEndpoints);
  }

  /** An endpoint containing a comma comes back as two. */
  lemma CommaInsideSplits()
    ensures Split(ExcludedUrls(Some(["/a,b"]))) == ["/a", "b"]
  {
    assert ExcludedUrls(Some(["/a,b"])) == "/a,b";
    var s := "/a,b";
    assert s[3..] == "b" && s[2..] == ",b" && s[1..] == "a,b";
    assert "b"[1..] == "" && "b"[0] == 'b';
    assert Split("b") == [['b'] + ""];
    assert ['b'] + "" == "b";
    assert Split(",b") == ["", "b"];
    assert Split("a,b") == [['a'] + ""] + ["b"];
    assert ['a'] + "" == "a";
    assert s[0] == '/' && Split(s[1..]) == ["a", "b"] && ["a", "b"][1..] == ["b"];
    assert Split(s) == [['/'] + "a"] + ["b"];
    assert ['/'] + "a" == "/a";
  }
}
