/** Go's `path.Clean` and the two-element `path.Join`, modelled on the list of
    slash-separated elements: empty and "." elements are dropped, ".." removes the
    element before it, and a rooted path keeps its leading '/'. */
module Path {
  import opened Strings

  /** Processes the elements left to right onto `kept`: ".." pops a real element,
      is dropped at the root of a rooted path, and is kept otherwise. */
  function Reduce(elems: seq<string>, rooted: bool, kept: seq<string>): seq<string>
    decreases |elems|
  {
    if elems == [] then kept
    else
      var e := elems[0];
      if e == "" || e == "." then Reduce(elems[1..], rooted, kept)
      else if e == ".." then
        if |kept| > 0 && kept[|kept| - 1] != ".." then Reduce(elems[1..], rooted, kept[..|kept| - 1])
        else if rooted then Reduce(elems[1..], rooted, kept)
        else Reduce(elems[1..], rooted, kept + [".."])
      else Reduce(elems[1..], rooted, kept + [e])
  }

  /** `path.Clean`: the shortest equivalent path; "." for an empty result. */
  function Clean(p: string): (r: string)
    ensures r != ""
  {
    var rooted := |p| > 0 && p[0] == '/';
    var body := Join(Reduce(Split(p, '/'), rooted, []), '/');
    if rooted then "/" + body
    else if body == "" then "."
    else body
  }

  /** `path.Join(a, b)`: leading empty elements are ignored, the rest is joined
      with '/' and cleaned; two empty elements give "". */
  function Join2(a: string, b: string): (r: string)
    ensures r == "" <==> a == "" && b == ""
  {
    if a != "" then Clean(a + "/" + b)
    else if b != "" then Clean(b)
    else ""
  }

  /** An ordinary path element: not empty, not "." or "..", no '/'. */
  predicate PlainElement(e: string)
  {
    e != "" && e != "." && e != ".." && '/' !in e
  }

  /** Joining two plain elements is plain concatenation with one '/'. */
  lemma {:induction false} JoinPlainElements(a: string, b: string)
    requires PlainElement(a) && PlainElement(b)
    ensures Join2(a, b) == a + "/" + b
  {
    var p := a + "/" + b;
    assert Join([a, b], '/') == p by {
      assert [a, b][1..] == [b];
    }
    SplitJoin([a, b], '/');
    assert Split(p, '/') == [a, b];
    assert [a, b][1..] == [b];
    assert [] + [a] == [a];
    assert Reduce([a, b], false, []) == Reduce([b], false, [a]);
    assert [b][1..] == [];
    assert Reduce([b], false, [a]) == [a, b];
    assert p[0] == a[0];
  }
}
