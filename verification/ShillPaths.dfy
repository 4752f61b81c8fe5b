/**
 Which strings shill may use as object paths: the root, or names of letters,
 digits and underscores, each led by a slash.
 */
module ShillPaths {
  import opened Shill

  predicate IsName(name: string) {
    name != "" && forall c :: c in name ==> 'A' <= c <= 'Z' || 'a' <= c <= 'z' || '0' <= c <= '9' || c == '_'
  }

  predicate AreNames(names: seq<string>) {
    forall name :: name in names ==> IsName(name)
  }

  function Joined(names: seq<string>): string {
    if names == [] then "" else "/" + names[0] + Joined(names[1..])
  }

  lemma {:induction false} JoinedIsValid(names: seq<string>)
    requires names != [] && AreNames(names)
    ensures IsValidPath(Joined(names)) && |Joined(names)| > 1
    decreases |names|
  {
    var name, rest := names[0], Joined(names[1..]);
    assert name in names;
    assert forall n :: n in names[1..] ==> n in names;
    if |names| > 1 { JoinedIsValid(names[1..]); }
    LedByName(name, rest);
  }

  // A name in front of a valid path that is not the root, or of nothing.
  lemma LedByName(name: string, rest: string)
    requires IsName(name) && (rest == "" || (IsValidPath(rest) && |rest| > 1))
    ensures IsValidPath("/" + name + rest)
  {
    var path, n := "/" + name + rest, |name| + 1;
    forall i | 0 <= i < |path| ensures IsPathChar(path[i]) || path[i] == '/' {
      if 1 <= i < n { assert path[i] == name[i - 1] && name[i - 1] in name; }
      if n <= i { assert path[i] == rest[i - n]; }
    }
    forall i, j | 0 <= i && j == i + 1 < |path| ensures path[i] != '/' || path[j] != '/' {
      if j < n { assert path[j] == name[j - 1] && name[j - 1] in name; }
      if j == n { assert path[i] == name[i - 1] && name[i - 1] in name; }
      if n < j { assert path[i] == rest[i - n] && path[j] == rest[j - n]; }
    }
    if rest == "" { assert name[|name| - 1] in name; }
  }

  // Where the name that starts at position i ends.
  function NameEnd(path: string, i: nat): (r: nat)
    requires i <= |path|
    ensures i <= r <= |path| && (forall k :: i <= k < r ==> path[k] != '/') && (r < |path| ==> path[r] == '/')
    decreases |path| - i
  {
    if i == |path| || path[i] == '/' then i else NameEnd(path, i + 1)
  }

  lemma NameFromPath(path: string, end: nat)
    requires IsValidPath(path) && path != "/" && 1 <= end <= |path|
    requires (forall k :: 1 <= k < end ==> path[k] != '/') && (end < |path| ==> path[end] == '/')
    ensures IsName(path[1..end])
  {
    var name := path[1..end];
    forall k | 0 <= k < |name| ensures IsPathChar(name[k]) {
      assert name[k] == path[k + 1];
    }
    assert path[0] == '/' && (|path| > 1 ==> path[1] != '/');
  }

  lemma RestIsValid(path: string, end: nat)
    requires IsValidPath(path) && 1 <= end < |path| && path[end] == '/'
    ensures IsValidPath(path[end..]) && path[end..] != "/"
  {
    var rest := path[end..];
    forall i | 0 <= i < |rest| ensures IsPathChar(rest[i]) || rest[i] == '/' {
      assert rest[i] == path[end + i];
    }
    forall i, j | 0 <= i && j == i + 1 < |rest| ensures rest[i] != '/' || rest[j] != '/' {
      assert rest[i] == path[end + i] && rest[j] == path[end + j];
    }
    assert path[|path| - 1] != '/' && rest[|rest| - 1] == path[|path| - 1];
  }

  lemma {:induction false} ValidIsJoined(path: string) returns (names: seq<string>)
    requires IsValidPath(path) && path != "/"
    ensures names != [] && AreNames(names) && path == Joined(names)
    decreases |path|
  {
    assert path != "" && path[0] == '/';
    hide IsValidPath, IsName;
    var end := NameEnd(path, 1);
    var name, rest := path[1..end], path[end..];
    assert path == "/" + name + rest;
    NameFromPath(path, end);
    if rest == "" {
      names := [name];
      assert names[1..] == [];
    } else {
      RestIsValid(path, end);
      var others := ValidIsJoined(rest);
      names := [name] + others;
      assert names[1..] == others;
    }
  }

  /** A path is valid if and only if it is the root or names joined by slashes. */
  lemma ValidPathsExactly(path: string)
    ensures IsValidPath(path) <==> path == "/" || exists names :: names != [] && AreNames(names) && path == Joined(names)
  {
    if IsValidPath(path) && path != "/" {
      var names := ValidIsJoined(path);
    }
    if names :| names != [] && AreNames(names) && path == Joined(names) {
      JoinedIsValid(names);
    }
  }
}
