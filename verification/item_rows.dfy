/** The rows of `ios/DB/ItemStore.swift` and the SQL the store asks about them. */
module ItemRows {
  import opened Types

  /** A stable UUID; the empty string stands for the vault's root. */
  type Id = string

  datatype Row =
    Row(parent: Id, filename: string, path: Path, isDirectory: bool, size: Option<nat>, modified: int,
        pendingUpload: bool, pendingDeletion: bool, isDeleted: bool, version: nat)

  type Rows = map<Id, Row>

  predicate Live(rows: Rows, id: Id) {
    id in rows && !rows[id].isDeleted
  }

  // ---- `SELECT MAX(rowVersion)` -----------------------------------------------------------

  ghost predicate IsMax(rows: Rows, m: nat) {
    && (forall id :: id in rows ==> rows[id].version <= m)
    && (m == 0 || exists id :: id in rows && rows[id].version == m)
  }

  /** The highest row version, 0 in an empty table. */
  ghost function MaxOf(rows: Rows): (m: nat)
    ensures IsMax(rows, m)
  {
    if rows == map[] then 0
    else
      var id :| id in rows;
      var rest := rows - {id};
      assert forall other :: other in rows ==> other == id || other in rest;
      var m := MaxOf(rest);
      if m > rows[id].version then m else rows[id].version
  }

  // ---- `LIKE` -----------------------------------------------------------------------------

  /** SQLite compares ASCII letters without regard to case. */
  function FoldChar(c: char): char {
    if 'A' <= c <= 'Z' then (c as int + 32) as char else c
  }

  function Fold(s: string): (r: string)
    ensures |r| == |s| && forall k :: 0 <= k < |s| ==> r[k] == FoldChar(s[k])
  {
    seq(|s|, k requires 0 <= k < |s| => FoldChar(s[k]))
  }

  /** A path below a directory, as the store's query sees it. */
  predicate Under(directory: Path, path: Path) {
    |path| > |directory| && Fold(path[..|directory|]) == Fold(directory) && path[|directory|] == '/'
  }

  /** `s LIKE pattern ESCAPE '\'`. */
  ghost predicate Like(pattern: string, s: string)
    decreases |pattern|
  {
    if pattern == "" then s == ""
    else if pattern[0] == '\\' then
      |pattern| > 1 && s != "" && FoldChar(s[0]) == FoldChar(pattern[1]) && Like(pattern[2..], s[1..])
    else if pattern[0] == '%' then exists k: nat :: k <= |s| && Like(pattern[1..], s[k..])
    else s != "" && (pattern[0] == '_' || FoldChar(s[0]) == FoldChar(pattern[0])) && Like(pattern[1..], s[1..])
  }

  /** One `replacingOccurrences` of the three: `c` becomes `\c`. */
  function Guarded(s: string, c: char): string {
    if s == "" then "" else (if s[0] == c then ['\\', c] else [s[0]]) + Guarded(s[1..], c)
  }

  function Escaped(s: string): string {
    Guarded(Guarded(Guarded(s, '\\'), '%'), '_')
  }

  function GuardedChar(x: char, c: char): string {
    if x == c then ['\\', c] else [x]
  }

  lemma GuardedCons(x: char, rest: string, c: char)
    ensures Guarded([x] + rest, c) == GuardedChar(x, c) + Guarded(rest, c)
  {
    assert ([x] + rest)[1..] == rest;
  }

  lemma Associates(a: string, b: string, c: string)
    ensures (a + b) + c == a + (b + c)
  {
  }

  lemma {:induction false} GuardedAppend(a: string, b: string, c: char)
    ensures Guarded(a + b, c) == Guarded(a, c) + Guarded(b, c)
  {
    if a == "" {
      assert a + b == b;
    } else {
      var x, rest := a[0], a[1..];
      assert a == [x] + rest;
      Associates([x], rest, b);
      GuardedCons(x, rest, c);
      GuardedCons(x, rest + b, c);
      GuardedAppend(rest, b, c);
      Associates(GuardedChar(x, c), Guarded(rest, c), Guarded(b, c));
    }
  }

  lemma GuardedOne(x: char, c: char)
    ensures Guarded([x], c) == if x == c then ['\\', c] else [x]
  {
    assert [x][1..] == "";
  }

  predicate Special(x: char) {
    x == '\\' || x == '%' || x == '_'
  }

  /** Every special character ends up behind exactly one backslash. */
  lemma EscapedOneMore(x: char, rest: string)
    ensures Escaped([x] + rest) == (if Special(x) then ['\\', x] else [x]) + Escaped(rest)
  {
    var once := Guarded([x], '\\');
    var twice := Guarded(once, '%');
    GuardedAppend([x], rest, '\\');
    GuardedAppend(once, Guarded(rest, '\\'), '%');
    GuardedAppend(twice, Guarded(Guarded(rest, '\\'), '%'), '_');
    GuardedPair(x);
  }

  lemma GuardedPair(x: char)
    ensures Guarded(Guarded(Guarded([x], '\\'), '%'), '_') == if Special(x) then ['\\', x] else [x]
  {
    GuardedOne(x, '\\');
    GuardedOne(x, '%');
    GuardedOne(x, '_');
    GuardedOne('\\', '%');
    GuardedOne('\\', '_');
    GuardedAppend(['\\'], ['\\'], '%');
    GuardedAppend(['\\'], ['\\'], '_');
    GuardedAppend(['\\'], ['%'], '_');
    GuardedOne('%', '_');
    assert ['\\'] + ['\\'] == ['\\', '\\'] && ['\\'] + ['%'] == ['\\', '%'];
  }

  /** The query finds exactly the paths below the directory, whatever characters its name holds. */
  lemma {:induction false} LikeIsUnder(directory: Path, path: Path)
    ensures Like(Escaped(directory) + "/%", path) <==> Under(directory, path)
  {
    if directory == "" {
      LikeTail(path);
      assert Escaped("") + "/%" == "/%";
      assert Fold(path[..0]) == Fold(directory);
    } else {
      var x, rest := directory[0], directory[1..];
      assert directory == [x] + rest;
      EscapedOneMore(x, rest);
      LikeHead(x, Escaped(rest) + "/%", path);
      assert Escaped(directory) + "/%" == (if Special(x) then ['\\', x] else [x]) + (Escaped(rest) + "/%");
      if path != "" {
        LikeIsUnder(rest, path[1..]);
        UnderHead(directory, path);
      }
    }
  }

  lemma LikeTail(path: Path)
    ensures Like("/%", path) <==> path != "" && path[0] == '/'
  {
    assert "/%"[1..] == "%" && "%"[1..] == "";
    if path != "" {
      assert path[1..][|path| - 1..] == "";
      assert Like("", path[1..][|path| - 1..]);
      assert Like("%", path[1..]);
    }
    assert FoldChar('/') == '/';
  }

  lemma LikeHead(x: char, rest: string, path: Path)
    ensures Like((if Special(x) then ['\\', x] else [x]) + rest, path) <==>
              path != "" && FoldChar(path[0]) == FoldChar(x) && Like(rest, path[1..])
  {
    var pattern := (if Special(x) then ['\\', x] else [x]) + rest;
    if Special(x) {
      assert pattern[2..] == rest;
    } else {
      assert pattern[1..] == rest;
    }
  }

  lemma UnderHead(directory: Path, path: Path)
    requires directory != "" && path != ""
    ensures Under(directory, path) <==> FoldChar(path[0]) == FoldChar(directory[0]) && Under(directory[1..], path[1..])
  {
    if |path| > |directory| {
      var n := |directory|;
      var a, b := Fold(path[..n]), Fold(directory);
      var a', b' := Fold(path[1..][..n - 1]), Fold(directory[1..]);
      assert a == [a[0]] + a[1..] && b == [b[0]] + b[1..];
      assert a[1..] == a' && b[1..] == b';
    }
  }
}
