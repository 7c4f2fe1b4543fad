/** Splitting, joining and replacing in strings, as Go's `strings` and `path/filepath` do it. */
module Text {

  predicate Free(s: string, c: char) {
    c !in s
  }

  predicate AllFree(cs: seq<string>, c: char) {
    forall i :: 0 <= i < |cs| ==> Free(cs[i], c)
  }

  /** `strings.ReplaceAll(s, [a], [b])` for single characters. */
  function ReplaceAll(s: string, a: char, b: char): (r: string)
    ensures |r| == |s|
    ensures forall i :: 0 <= i < |s| ==> r[i] == if s[i] == a then b else s[i]
  {
    seq(|s|, i requires 0 <= i < |s| => if s[i] == a then b else s[i])
  }

  function Join(cs: seq<string>, sep: char): string {
    if cs == [] then ""
    else if |cs| == 1 then cs[0]
    else Join(cs[..|cs| - 1], sep) + [sep] + cs[|cs| - 1]
  }

  function Split(s: string, sep: char): (cs: seq<string>)
    ensures cs != []
  {
    if s == "" then [""]
    else
      var before := Split(s[..|s| - 1], sep);
      var c := s[|s| - 1];
      if c == sep then before + [""]
      else before[..|before| - 1] + [before[|before| - 1] + [c]]
  }

  /** Text without the separator only lengthens the last piece. */
  lemma {:induction false} SplitAppend(s: string, t: string, sep: char)
    requires Free(t, sep)
    ensures var cs := Split(s, sep);
            Split(s + t, sep) == cs[..|cs| - 1] + [cs[|cs| - 1] + t]
  {
    if t == "" {
      var cs := Split(s, sep);
      assert s + t == s && cs[|cs| - 1] + t == cs[|cs| - 1];
    } else {
      var u := s + t;
      assert u[..|u| - 1] == s + t[..|t| - 1];
      var front, c, cs := t[..|t| - 1], t[|t| - 1], Split(s, sep);
      SplitAppend(s, front, sep);
      assert u[|u| - 1] == c && c in t;
      assert cs[|cs| - 1] + front + [c] == cs[|cs| - 1] + t;
      assert Split(u[..|u| - 1], sep)[..|cs| - 1] == cs[..|cs| - 1];
    }
  }

  lemma SplitAfterSeparator(s: string, t: string, sep: char)
    requires Free(t, sep)
    ensures Split(s + [sep] + t, sep) == Split(s, sep) + [t]
  {
    var u := s + [sep];
    assert u[..|u| - 1] == s;
    SplitAppend(u, t, sep);
    assert "" + t == t;
  }

  lemma SplitOne(t: string, sep: char)
    requires Free(t, sep)
    ensures Split(t, sep) == [t]
  {
    SplitAppend("", t, sep);
    assert "" + t == t;
  }

  lemma JoinLast(cs: seq<string>, last: string, sep: char)
    requires cs != []
    ensures Join(cs + [last], sep) == Join(cs, sep) + [sep] + last
  {
    assert (cs + [last])[..|cs|] == cs;
  }

  /** Splitting undoes joining. */
  lemma {:induction false} SplitOfJoin(cs: seq<string>, sep: char)
    requires cs != [] && AllFree(cs, sep)
    ensures Split(Join(cs, sep), sep) == cs
  {
    var front, last := cs[..|cs| - 1], cs[|cs| - 1];
    assert cs == front + [last];
    if front == [] {
      SplitOne(last, sep);
    } else {
      SplitOfJoin(front, sep);
      JoinLast(front, last, sep);
      SplitAfterSeparator(Join(front, sep), last, sep);
    }
  }

  // ----- filepath

  /** The directories named by path pieces, with `.` and `..` taken out, from the root. */
  function Resolve(cs: seq<string>): seq<string> {
    if cs == [] then []
    else
      var before := Resolve(cs[..|cs| - 1]);
      var c := cs[|cs| - 1];
      if c == "" || c == "." then before
      else if c == ".." then (if before == [] then [] else before[..|before| - 1])
      else before + [c]
  }

  /** The absolute path through the given directories. */
  function Rooted(cs: seq<string>): string {
    if cs == [] then "/" else Join([""] + cs, '/')
  }

  /** `filepath.Clean` on an absolute path. */
  function Clean(path: string): string {
    Rooted(Resolve(Split(path, '/')))
  }

  /** `filepath.Join(dir, name)` for an absolute `dir` and a non-empty `name`. */
  function JoinPath(dir: string, name: string): string {
    Clean(dir + "/" + name)
  }

  /** A piece that `Clean` leaves alone. */
  predicate Proper(name: string) {
    name != "" && name != "." && name != ".." && Free(name, '/')
  }

  predicate AllProper(cs: seq<string>) {
    forall i :: 0 <= i < |cs| ==> Proper(cs[i])
  }

  lemma {:induction false} ResolveProper(cs: seq<string>)
    requires AllProper(cs)
    ensures Resolve([""] + cs) == cs
  {
    var all := [""] + cs;
    if cs == [] {
      assert all[..0] == [];
    } else {
      ResolveProper(cs[..|cs| - 1]);
      assert all[..|all| - 1] == [""] + cs[..|cs| - 1];
      assert cs == cs[..|cs| - 1] + [cs[|cs| - 1]];
    }
  }

  /** What is left of any pieces names directories only: nothing empty, no `.` and no `..`. */
  lemma {:induction false} ResolvedIsProper(cs: seq<string>)
    requires AllFree(cs, '/')
    ensures AllProper(Resolve(cs))
  {
    if cs != [] {
      ResolvedIsProper(cs[..|cs| - 1]);
    }
  }

  /** A directory followed by `..` is gone, `.` and empty pieces never count, and nothing lies
      above the root. */
  lemma ParentCancels(cs: seq<string>, name: string)
    requires Proper(name)
    ensures Resolve(cs + [name]) == Resolve(cs) + [name] && Resolve(cs + [name] + [".."]) == Resolve(cs)
    ensures Resolve(cs + ["."]) == Resolve(cs + [""]) == Resolve(cs)
    ensures Resolve([".."]) == []
  {
    forall c: string
      ensures (cs + [c])[..|cs|] == cs && (cs + [name] + [c])[..|cs| + 1] == cs + [name]
    {
    }
    assert [".."][..0] == [];
  }

  /** Joining a proper name to a clean path just appends it. */
  lemma JoinPathAppends(cs: seq<string>, name: string)
    requires cs != [] && AllProper(cs) && Proper(name)
    ensures JoinPath(Rooted(cs), name) == Rooted(cs + [name])
  {
    var all := [""] + (cs + [name]);
    assert all[..|all| - 1] == [""] + cs;
    assert Join(all, '/') == Rooted(cs) + "/" + name;
    SplitOfJoin(all, '/');
    ResolveProper(cs + [name]);
  }

  lemma SplitRooted(cs: seq<string>)
    requires cs != [] && AllFree(cs, '/')
    ensures Split(Rooted(cs), '/') == [""] + cs
  {
    SplitOfJoin([""] + cs, '/');
  }
}
