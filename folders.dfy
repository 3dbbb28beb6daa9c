/**
 * `DriveFolder`: the search queries it builds for `child` and `children`,
 * and the walk along a slash-separated path in `child_from_path` and
 * `create_path`.
 *
 * A query is modelled twice: as the text the Drive API receives, and as the
 * list of clauses that text joins with ` and `; `Selects` gives the clauses
 * their meaning on a Drive item.
 */
module Folders {
  import opened Common
  import opened Http

  const FOLDER_MIME: string := "application/vnd.google-apps.folder"

  /** A file or folder as the Drive API describes it (`_reply_to_object` picks the class from `folder`). */
  datatype Item = Item(id: string, name: string, parents: seq<string>, folder: bool, trashed: bool)

  // ---------------------------------------------------------------------
  // Queries

  datatype Clause =
      /** `'{id}' in parents` */
    | InParents(id: string)
      /** `name='{name}'` */
    | NameIs(name: string)
      /** `mimeType = '<folder>'` when `folder`, `mimeType != '<folder>'` otherwise. */
    | MimeIsFolder(folder: bool)
      /** `trashed = true` or `trashed = false` */
    | TrashedIs(trashed: bool)

  function ClauseText(c: Clause): string {
    match c
    case InParents(id) => "'" + id + "' in parents"
    case NameIs(name) => "name='" + name + "'"
    case MimeIsFolder(folder) => if folder then "mimeType = '" + FOLDER_MIME + "'" else "mimeType != '" + FOLDER_MIME + "'"
    case TrashedIs(trashed) => if trashed then "trashed = true" else "trashed = false"
  }

  /** The clauses joined with ` and `. */
  function QueryText(q: seq<Clause>): string {
    if q == [] then ""
    else if |q| == 1 then ClauseText(q[0])
    else QueryText(q[..|q| - 1]) + " and " + ClauseText(q[|q| - 1])
  }

  /** What a clause demands of an item. */
  predicate Holds(c: Clause, item: Item) {
    match c
    case InParents(id) => id in item.parents
    case NameIs(name) => item.name == name
    case MimeIsFolder(folder) => item.folder == folder
    case TrashedIs(trashed) => item.trashed == trashed
  }

  /** The items a query selects: those every clause holds for. */
  predicate Selects(q: seq<Clause>, item: Item) {
    forall i :: 0 <= i < |q| ==> Holds(q[i], item)
  }

  /** `_narrow_query` on the text of a query. */
  function NarrowQuery(query: string, folders: bool, files: bool, trashed: bool): string {
    var q1 := if folders && !files then query + " and mimeType = '" + FOLDER_MIME + "'"
              else if files && !folders then query + " and mimeType != '" + FOLDER_MIME + "'"
              else query;
    if trashed then q1 + " and trashed = true" else q1 + " and trashed = false"
  }

  /** `_narrow_query` on the clauses of a query. */
  function Narrow(q: seq<Clause>, folders: bool, files: bool, trashed: bool): seq<Clause> {
    var q1 := if folders != files then q + [MimeIsFolder(folders)] else q;
    q1 + [TrashedIs(trashed)]
  }

  function CountMime(q: seq<Clause>): nat {
    if q == [] then 0 else CountMime(q[..|q| - 1]) + (if q[|q| - 1].MimeIsFolder? then 1 else 0)
  }

  function CountTrashed(q: seq<Clause>): nat {
    if q == [] then 0 else CountTrashed(q[..|q| - 1]) + (if q[|q| - 1].TrashedIs? then 1 else 0)
  }

  /** Appending a clause to a non-empty query appends ` and ` and its text. */
  lemma QueryTextAppend(q: seq<Clause>, c: Clause)
    requires q != []
    ensures QueryText(q + [c]) == QueryText(q) + " and " + ClauseText(c)
  {
    assert (q + [c])[..|q|] == q;
  }

  lemma SplitLiterals()
    ensures " and mimeType = '" == " and " + "mimeType = '"
    ensures " and mimeType != '" == " and " + "mimeType != '"
    ensures " and trashed = true" == " and " + "trashed = true"
    ensures " and trashed = false" == " and " + "trashed = false"
  {
  }

  /** The `mimeType` clause `_narrow_query` appends, as text. */
  lemma MimeSuffix(query: string, folder: bool)
    ensures folder ==> query + " and mimeType = '" + FOLDER_MIME + "'" == query + " and " + ClauseText(MimeIsFolder(true))
    ensures !folder ==> query + " and mimeType != '" + FOLDER_MIME + "'" == query + " and " + ClauseText(MimeIsFolder(false))
  {
    SplitLiterals();
    var op := if folder then "mimeType = '" else "mimeType != '";
    Regroup(query, " and ", op);
    Regroup(query + " and ", op, FOLDER_MIME);
    Regroup(query + " and ", op + FOLDER_MIME, "'");
  }

  /** The `trashed` clause `_narrow_query` appends, as text. */
  lemma TrashedSuffix(query: string, trashed: bool)
    ensures trashed ==> query + " and trashed = true" == query + " and " + ClauseText(TrashedIs(true))
    ensures !trashed ==> query + " and trashed = false" == query + " and " + ClauseText(TrashedIs(false))
  {
    SplitLiterals();
    Regroup(query, " and ", if trashed then "trashed = true" else "trashed = false");
  }

  /** Narrowing the text of a non-empty query writes the narrowed clauses. */
  lemma NarrowQueryText(q: seq<Clause>, folders: bool, files: bool, trashed: bool)
    requires q != []
    ensures NarrowQuery(QueryText(q), folders, files, trashed) == QueryText(Narrow(q, folders, files, trashed))
  {
    var t := QueryText(q);
    var q1 := if folders != files then q + [MimeIsFolder(folders)] else q;
    MimeSuffix(t, folders);
    QueryTextAppend(q, MimeIsFolder(folders));
    var t1 := if folders && !files then t + " and mimeType = '" + FOLDER_MIME + "'"
              else if files && !folders then t + " and mimeType != '" + FOLDER_MIME + "'"
              else t;
    assert t1 == QueryText(q1);
    TrashedSuffix(t1, trashed);
    QueryTextAppend(q1, TrashedIs(trashed));
  }

  /**
   * Narrowing keeps the query and appends one `trashed` clause and at most
   * one `mimeType` clause, the latter exactly when one kind of item is wanted.
   */
  lemma NarrowClauses(q: seq<Clause>, folders: bool, files: bool, trashed: bool)
    ensures var r := Narrow(q, folders, files, trashed);
      && r[..|q|] == q
      && CountTrashed(r) == CountTrashed(q) + 1
      && CountMime(r) == CountMime(q) + (if folders != files then 1 else 0)
      && r[|r| - 1] == TrashedIs(trashed)
      && (folders != files ==> r[|q|] == MimeIsFolder(folders))
  {
    var q1 := if folders != files then q + [MimeIsFolder(folders)] else q;
    var r := q1 + [TrashedIs(trashed)];
    assert r[..|r| - 1] == q1;
    if folders != files {
      assert q1[..|q1| - 1] == q;
    }
  }

  /**
   * The narrowed query selects exactly the items the query selects that are
   * of a wanted kind and in the wanted trash state.
   */
  lemma NarrowSelects(q: seq<Clause>, folders: bool, files: bool, trashed: bool, item: Item)
    requires folders || files
    ensures Selects(Narrow(q, folders, files, trashed), item) <==>
      Selects(q, item) && (if item.folder then folders else files) && item.trashed == trashed
  {
    var r := Narrow(q, folders, files, trashed);
    if Selects(r, item) {
      assert forall i :: 0 <= i < |q| ==> r[i] == q[i];
      assert Holds(r[|r| - 1], item);
      if folders != files {
        assert Holds(r[|q|], item);
      }
    }
  }

  /**
   * With neither kind wanted no `mimeType` clause is added, so the query
   * would select folders and files alike; `child` raises instead.
   */
  lemma NarrowNeitherKind(q: seq<Clause>, trashed: bool, item: Item)
    ensures Selects(Narrow(q, false, false, trashed), item) <==> Selects(q, item) && item.trashed == trashed
  {
    var r := Narrow(q, false, false, trashed);
    if Selects(r, item) {
      assert forall i :: 0 <= i < |q| ==> r[i] == q[i];
      assert Holds(r[|r| - 1], item);
    }
  }

  /** The query `child` sends, or the `FileNotFoundError` it raises when neither kind is wanted. */
  function ChildQuery(id: string, name: string, folders: bool, files: bool, trashed: bool): (r: Result<string, Error>)
    ensures r.Failure? <==> !folders && !files
    ensures r.Failure? ==> r.error == FileNotFound(name)
    ensures r.Success? ==> r.value == QueryText(Narrow([InParents(id), NameIs(name)], folders, files, trashed))
  {
    var query := "'" + id + "' in parents and name='" + name + "'";
    if !folders && !files then Failure(FileNotFound(name))
    else
      assert query == QueryText([InParents(id), NameIs(name)]) by {
        assert [InParents(id), NameIs(name)][..1] == [InParents(id)];
      }
      NarrowQueryText([InParents(id), NameIs(name)], folders, files, trashed);
      Success(NarrowQuery(query, folders, files, trashed))
  }

  /** The query `children` lists by, or nothing when neither kind is wanted. */
  function ChildrenQuery(id: string, folders: bool, files: bool, trashed: bool): (r: Option<string>)
    ensures r.None? <==> !folders && !files
    ensures r.Some? ==> r.value == QueryText(Narrow([InParents(id)], folders, files, trashed))
  {
    if !folders && !files then None
    else
      NarrowQueryText([InParents(id)], folders, files, trashed);
      Some(NarrowQuery("'" + id + "' in parents", folders, files, trashed))
  }

  /**
   * `child`: `list` is the search, returning every match of a query in the
   * API's order. A page of one item with a next-page token means two or
   * more matches.
   */
  function Child(list: string -> seq<Item>, id: string, name: string, folders: bool, files: bool,
                 trashed: bool): (r: Result<Item, Error>)
    ensures !folders && !files ==> r == Failure(FileNotFound(name))
    ensures r.Success? ==>
      var found := list(ChildQuery(id, name, folders, files, trashed).value);
      |found| == 1 && r.value == found[0]
    ensures r.Failure? && (folders || files) ==>
      var found := list(ChildQuery(id, name, folders, files, trashed).value);
      (|found| == 0 && r.error == FileNotFound(name)) || (|found| >= 2 && r.error == Ambiguous(name))
  {
    match ChildQuery(id, name, folders, files, trashed)
    case Failure(e) => Failure(e)
    case Success(query) =>
      var found := list(query);
      if |found| >= 2 then Failure(Ambiguous(name))
      else if found == [] then Failure(FileNotFound(name))
      else Success(found[0])
  }

  // ---------------------------------------------------------------------
  // Paths

  predicate NoSlash(s: string) {
    forall k :: 0 <= k < |s| ==> s[k] != '/'
  }

  /** Neither starts nor ends with `/`. */
  predicate Trimmed(s: string) {
    s == [] || (s[0] != '/' && s[|s| - 1] != '/')
  }

  /** `lstrip('/')`. */
  function StripLeft(s: string): (r: string)
    ensures |r| <= |s| && r == s[|s| - |r|..]
    ensures forall k :: 0 <= k < |s| - |r| ==> s[k] == '/'
    ensures r == [] || r[0] != '/'
  {
    if s != [] && s[0] == '/' then StripLeft(s[1..]) else s
  }

  /** `rstrip('/')`. */
  function StripRight(s: string): (r: string)
    ensures |r| <= |s| && r == s[..|r|]
    ensures forall k :: |r| <= k < |s| ==> s[k] == '/'
    ensures r == [] || r[|r| - 1] != '/'
  {
    if s != [] && s[|s| - 1] == '/' then StripRight(s[..|s| - 1]) else s
  }

  /** `strip('/')`. */
  function Strip(s: string): (r: string)
    ensures Trimmed(r) && |r| <= |s|
    ensures Trimmed(s) ==> r == s
  {
    var l := StripLeft(s);
    assert l != [] && l[0] != '/' && StripRight(l) != [] ==> StripRight(l)[0] == l[0];
    StripRight(l)
  }

  /** `s` is `r` with `i` slashes before it and nothing but slashes after it. */
  predicate SlashesAround(s: string, i: nat, r: string) {
    && i + |r| <= |s| && r == s[i..i + |r|]
    && (forall k :: 0 <= k < i ==> s[k] == '/')
    && (forall k :: i + |r| <= k < |s| ==> s[k] == '/')
  }

  /** `strip('/')` removes slashes at both ends and nothing else. */
  lemma StripRemovesEndSlashes(s: string)
    ensures exists i :: SlashesAround(s, i, Strip(s))
  {
    var l := StripLeft(s);
    var r := StripRight(l);
    assert Strip(s) == r;
    PeeledSlashes(s, l, r);
  }

  lemma PeeledSlashes(s: string, l: string, r: string)
    requires |l| <= |s| && l == s[|s| - |l|..] && forall k :: 0 <= k < |s| - |l| ==> s[k] == '/'
    requires |r| <= |l| && r == l[..|r|] && forall k :: |r| <= k < |l| ==> l[k] == '/'
    ensures SlashesAround(s, |s| - |l|, r)
  {
    var i := |s| - |l|;
    assert forall k :: i <= k < |s| ==> s[k] == l[k - i];
  }

  /** The index of the first `/`, if any. */
  function FirstSlash(s: string): (r: Option<nat>)
    ensures r.None? ==> NoSlash(s)
    ensures r.Some? ==> r.value < |s| && s[r.value] == '/' && NoSlash(s[..r.value])
  {
    if s == [] then None
    else if s[0] == '/' then Some(0)
    else match FirstSlash(s[1..])
      case None => None
      case Some(i) =>
        assert s[..i + 1] == [s[0]] + s[1..][..i];
        Some(i + 1)
  }

  /** `path.strip('/').split('/', 1)`: the first name, and the rest when there is a `/`. */
  function SplitPath(path: string): (r: (string, Option<string>))
    ensures NoSlash(r.0)
    ensures r.1.Some? ==> |r.1.value| < |path| && r.1.value != [] && r.1.value[|r.1.value| - 1] != '/'
  {
    var t := Strip(path);
    match FirstSlash(t)
    case None => (t, None)
    case Some(i) =>
      CutAtSlash(t, i);
      (t[..i], Some(t[i + 1..]))
  }

  /** `split('/', 1)` cuts the stripped path at its first slash and drops only that slash. */
  lemma SplitPathRejoins(path: string)
    ensures var r := SplitPath(path);
      && (r.1.None? ==> r.0 == Strip(path) && NoSlash(Strip(path)))
      && (r.1.Some? ==> Strip(path) == r.0 + "/" + r.1.value)
  {
    var t := Strip(path);
    match FirstSlash(t)
    case None =>
    case Some(i) => CutAtSlash(t, i);
  }

  /** Cutting stripped text at a slash leaves a non-empty rest that does not end with a slash. */
  lemma CutAtSlash(t: string, i: nat)
    requires Trimmed(t) && i < |t| && t[i] == '/'
    ensures t == t[..i] + "/" + t[i + 1..]
    ensures t[i + 1..] != [] && |t[i + 1..]| < |t|
    ensures t[|t| - 1] != '/' && t[i + 1..][|t[i + 1..]| - 1] == t[|t| - 1]
  {
    SplitAround(t, i);
  }

  /** The names `child_from_path` and `create_path` look up, in order. */
  function PathNames(path: string): (names: seq<string>)
    ensures |names| >= 1
    ensures forall k :: 0 <= k < |names| ==> NoSlash(names[k])
    decreases |path|
  {
    var (first, rest) := SplitPath(path);
    if rest.None? then [first] else [first] + PathNames(rest.value)
  }

  /** The names joined with `/`. */
  function Join(names: seq<string>): string
    requires |names| >= 1
  {
    if |names| == 1 then names[0] else names[0] + "/" + Join(names[1..])
  }

  /**
   * Looks the names up one below the other: `lookup(folder id, name)` finds
   * the child; a child whose name differs fails with "Failed to create"
   * when `creating` and "Could not access" otherwise, and a file cannot be
   * descended into.
   */
  function Walk(start: Item, names: seq<string>, lookup: (string, string) -> Result<Item, Error>,
                creating: bool): (r: Result<Item, Error>)
    requires |names| >= 1
    ensures r.Success? ==> r.value.name == names[|names| - 1]
    decreases |names|
  {
    match lookup(start.id, names[0])
    case Failure(e) => Failure(e)
    case Success(child) =>
      if child.name != names[0] then Failure(if creating then FailedToCreate(names[0]) else CouldNotAccess(names[0]))
      else if |names| == 1 then Success(child)
      else if !child.folder then Failure(NotAFolder(child.name))
      else Walk(child, names[1..], lookup, creating)
  }

  /**
   * `child_from_path`: `child(name)` (folders and files, not trashed) is
   * `lookup`. Below a file the source calls a method files do not have.
   */
  function ChildFromPath(start: Item, path: string, lookup: (string, string) -> Result<Item, Error>): Result<Item, Error>
    decreases |path|
  {
    var (first, rest) := SplitPath(path);
    match lookup(start.id, first)
    case Failure(e) => Failure(e)
    case Success(child) =>
      if child.name != first then Failure(CouldNotAccess(first))
      else if rest.None? then Success(child)
      else if !child.folder then Failure(NotAFolder(child.name))
      else ChildFromPath(child, rest.value, lookup)
  }

  /** `create_path`: `mkdir(name)` is `make`. */
  function CreatePath(start: Item, path: string, make: (string, string) -> Result<Item, Error>): Result<Item, Error>
    decreases |path|
  {
    var (first, rest) := SplitPath(path);
    match make(start.id, first)
    case Failure(e) => Failure(e)
    case Success(child) =>
      if child.name != first then Failure(FailedToCreate(first))
      else if rest.None? then Success(child)
      else if !child.folder then Failure(NotAFolder(child.name))
      else CreatePath(child, rest.value, make)
  }

  /** `child_from_path` looks up the path's names one below the other. */
  lemma {:induction false} ChildFromPathWalks(start: Item, path: string, lookup: (string, string) -> Result<Item, Error>)
    ensures ChildFromPath(start, path, lookup) == Walk(start, PathNames(path), lookup, false)
    decreases |path|
  {
    var (first, rest) := SplitPath(path);
    var names := PathNames(path);
    assert names[0] == first;
    if rest.Some? {
      match lookup(start.id, first)
      case Failure(_) =>
      case Success(child) =>
        if child.name == first && child.folder {
          ChildFromPathWalks(child, rest.value, lookup);
          assert names[1..] == PathNames(rest.value);
        }
    }
  }

  /** `create_path` creates the path's names one below the other. */
  lemma {:induction false} CreatePathWalks(start: Item, path: string, make: (string, string) -> Result<Item, Error>)
    ensures CreatePath(start, path, make) == Walk(start, PathNames(path), make, true)
    decreases |path|
  {
    var (first, rest) := SplitPath(path);
    var names := PathNames(path);
    assert names[0] == first;
    if rest.Some? {
      match make(start.id, first)
      case Failure(_) =>
      case Success(child) =>
        if child.name == first && child.folder {
          CreatePathWalks(child, rest.value, make);
          assert names[1..] == PathNames(rest.value);
        }
    }
  }

  /** The first name is empty only for a path made of slashes (the root's own child `''`). */
  lemma FirstNameEmpty(path: string)
    ensures PathNames(path)[0] == [] <==> forall k :: 0 <= k < |path| ==> path[k] == '/'
  {
    StripAllSlashes(path);
    var t := Strip(path);
    if t != [] {
      assert t[0] != '/';
    }
  }

  /** A path with a character other than `/` has a non-empty first name. */
  lemma FirstNameOfNonSlash(path: string, k: nat)
    requires k < |path| && path[k] != '/'
    ensures PathNames(path)[0] != []
  {
    FirstNameEmpty(path);
  }

  /** Every name after the first is non-empty. */
  lemma {:induction false} LaterNamesNonEmpty(path: string)
    ensures forall k :: 1 <= k < |PathNames(path)| ==> PathNames(path)[k] != []
    decreases |path|
  {
    var (first, rest) := SplitPath(path);
    if rest.Some? {
      var r := rest.value;
      LaterNamesNonEmpty(r);
      FirstNameOfNonSlash(r, |r| - 1);
      forall k | 1 <= k < |PathNames(path)|
        ensures PathNames(path)[k] != []
      {
        PrependIndex(first, PathNames(r), k);
      }
    }
  }

  /** `strip('/')` leaves nothing exactly when the text is all slashes. */
  lemma StripAllSlashes(s: string)
    ensures Strip(s) == [] <==> forall k :: 0 <= k < |s| ==> s[k] == '/'
  {
    if forall k :: 0 <= k < |s| ==> s[k] == '/' {
      AllSlashesStripLeft(s);
    }
  }

  lemma {:induction false} AllSlashesStripLeft(s: string)
    requires forall k :: 0 <= k < |s| ==> s[k] == '/'
    ensures StripLeft(s) == []
    decreases |s|
  {
    if s != [] {
      AllSlashesStripLeft(s[1..]);
    }
  }

  /** A leading `/` is stripped away. */
  lemma StripLeadingSlash(j: string)
    requires Trimmed(j)
    ensures Strip("/" + j) == j
  {
    assert ("/" + j)[1..] == j;
  }

  /** Splitting `name/tail` at its first slash. */
  lemma SplitJoined(n: string, tail: string)
    requires n != [] && NoSlash(n) && tail != [] && Trimmed(tail)
    ensures SplitPath(n + "/" + tail) == (n, Some(tail))
  {
    var j := n + "/" + tail;
    assert Trimmed(j);
    FirstSlashAfterName(n, tail);
    assert j[..|n|] == n;
    assert j[|n| + 1..] == tail;
  }

  /** A single name is not split. */
  lemma SplitSingle(n: string)
    requires n != [] && NoSlash(n)
    ensures SplitPath(n) == (n, None)
  {
    FirstSlashOfNoSlash(n);
  }

  /**
   * Joining non-empty names without slashes and splitting the path again,
   * with or without a leading `/`, gives back the names.
   */
  lemma {:induction false} PathNamesOfJoin(names: seq<string>)
    requires |names| >= 1
    requires forall k :: 0 <= k < |names| ==> names[k] != [] && NoSlash(names[k])
    ensures PathNames(Join(names)) == names
    ensures PathNames("/" + Join(names)) == names
    decreases |names|
  {
    var j := Join(names);
    JoinTrimmed(names);
    StripLeadingSlash(j);
    assert SplitPath("/" + j) == SplitPath(j);
    if |names| == 1 {
      SplitSingle(names[0]);
    } else {
      PathNamesOfJoin(names[1..]);
      JoinTrimmed(names[1..]);
      SplitJoined(names[0], Join(names[1..]));
      HeadAndTail(names);
    }
  }

  lemma FirstSlashOfNoSlash(s: string)
    requires NoSlash(s)
    ensures FirstSlash(s) == None
  {
  }

  lemma {:induction false} FirstSlashAfterName(n: string, tail: string)
    requires NoSlash(n)
    ensures FirstSlash(n + "/" + tail) == Some(|n|)
    decreases |n|
  {
    if n != [] {
      FirstSlashAfterName(n[1..], tail);
      assert (n + "/" + tail)[1..] == n[1..] + "/" + tail;
    }
  }

  /** A join of non-empty, slash-free names neither starts nor ends with `/`, and is not empty. */
  lemma {:induction false} JoinTrimmed(names: seq<string>)
    requires |names| >= 1
    requires forall k :: 0 <= k < |names| ==> names[k] != [] && NoSlash(names[k])
    ensures Join(names) != [] && Trimmed(Join(names))
    decreases |names|
  {
    if |names| > 1 {
      JoinTrimmed(names[1..]);
    }
  }
}
