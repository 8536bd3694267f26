/**
 * The migration runner: which migration files of the migrations directory are
 * run, in which order, and the positions and flags each run is given.
 * Directory listing, outcomes of `executeMigration` and the existence of paths
 * are inputs; the calls made to `executeMigration` are the observable result.
 */
module RunMigration {
  import opened Common
  import PathConfig

  // ---------------------------------------------------------------------------
  // The revision of a migration file name
  // ---------------------------------------------------------------------------

  predicate IsDigit(c: char) {
    '0' <= c <= '9'
  }

  predicate AllDigits(s: string) {
    forall i :: 0 <= i < |s| ==> IsDigit(s[i])
  }

  /** `file.indexOf('.') !== 0 && file.endsWith('.js')`: not hidden, a script. */
  predicate IsScript(file: string) {
    (file == [] || file[0] != '.') && |file| >= 3 && file[|file| - 3..] == ".js"
  }

  /** `name.split('-', 2)[0]`: the text before the first '-', all of it when there is none. */
  function RevisionField(name: string): (r: string)
    ensures r <= name
    ensures '-' !in r
    ensures r == name || name[|r|] == '-'
  {
    if name == [] || name[0] == '-' then [] else [name[0]] + RevisionField(name[1..])
  }

  /** The longest prefix made of decimal digits. */
  function LeadingDigits(s: string): (r: string)
    ensures r <= s && AllDigits(r)
    ensures r == s || !IsDigit(s[|r|])
  {
    if s == [] || !IsDigit(s[0]) then [] else [s[0]] + LeadingDigits(s[1..])
  }

  /** The value of a decimal numeral (most significant digit first). */
  function DigitsValue(d: string): nat
    requires AllDigits(d)
  {
    if d == [] then 0 else 10 * DigitsValue(d[..|d| - 1]) + (d[|d| - 1] as int - '0' as int)
  }

  /** The value of the leading digits of a name's revision field; 0 when there are none. */
  function RevValue(file: string): nat {
    DigitsValue(LeadingDigits(RevisionField(file)))
  }

  /**
   * `parseInt(path.basename(file).split('-', 2)[0])` for a directory entry,
   * with None standing for NaN: a name has a revision exactly when it starts
   * with a digit.
   */
  function RevOf(file: string): (r: Option<nat>)
    ensures r.None? <==> file == [] || !IsDigit(file[0])
    ensures r.Some? ==> r.value == RevValue(file)
  {
    var field := RevisionField(file);
    assert field != [] ==> field[0] == file[0];
    if LeadingDigits(field) == [] then None else Some(RevValue(file))
  }

  /** The decimal numeral of a natural number, as a template string writes it. */
  function Decimal(n: nat): (d: string)
    ensures d != [] && AllDigits(d)
  {
    if n < 10 then [('0' as int + n) as char] else Decimal(n / 10) + [('0' as int + n % 10) as char]
  }

  lemma {:induction false} DecimalValue(n: nat)
    ensures DigitsValue(Decimal(n)) == n
  {
    if n >= 10 {
      DecimalValue(n / 10);
      var d := Decimal(n);
      assert d[..|d| - 1] == Decimal(n / 10);
    }
  }

  lemma {:induction false} RevisionFieldAppend(a: string, b: string)
    requires '-' !in a
    ensures RevisionField(a + b) == a + RevisionField(b)
  {
    if a != [] {
      assert (a + b)[1..] == a[1..] + b;
      RevisionFieldAppend(a[1..], b);
    } else {
      assert a + b == b;
    }
  }

  lemma {:induction false} LeadingDigitsAppend(a: string, b: string)
    requires AllDigits(a)
    ensures LeadingDigits(a + b) == a + LeadingDigits(b)
  {
    if a != [] {
      assert (a + b)[1..] == a[1..] + b;
      LeadingDigitsAppend(a[1..], b);
    } else {
      assert a + b == b;
    }
  }

  /**
   * A name made of a decimal revision followed by text that does not start
   * with a digit (such as "-name.js") parses back to that revision.
   */
  lemma RevOfNumberedName(n: nat, rest: string)
    requires rest == [] || !IsDigit(rest[0])
    ensures RevOf(Decimal(n) + rest) == Some(n)
  {
    var d := Decimal(n);
    RevisionFieldAppend(d, rest);
    var tail := RevisionField(rest);
    assert tail == [] || tail[0] == rest[0];
    assert LeadingDigits(tail) == [];
    LeadingDigitsAppend(d, tail);
    assert d + [] == d;
    assert LeadingDigits(RevisionField(d + rest)) == d;
    DecimalValue(n);
  }

  // ---------------------------------------------------------------------------
  // Selection and ordering of the migration files
  // ---------------------------------------------------------------------------

  /** The test a directory entry passes to be run: a visible script whose revision is at least `fromRevision`. */
  predicate Selected(file: string, fromRevision: int) {
    IsScript(file) && RevOf(file).Some? && RevOf(file).value >= fromRevision
  }

  /** The selected entries, in listing order. */
  function Select(listing: seq<string>, fromRevision: int): (r: seq<string>)
    ensures forall f :: f in r <==> f in listing && Selected(f, fromRevision)
    ensures multiset(r) <= multiset(listing)
  {
    if listing == [] then []
    else
      assert listing == [listing[0]] + listing[1..];
      (if Selected(listing[0], fromRevision) then [listing[0]] else []) + Select(listing[1..], fromRevision)
  }

  /**
   * The comparator on a key: ascending, descending on rollback. The runner
   * sorts on the revision; the sort below is written for any key.
   */
  predicate InOrder(key: string -> nat, a: string, b: string, rollback: bool) {
    if rollback then key(a) >= key(b) else key(a) <= key(b)
  }

  predicate Ordered(key: string -> nat, s: seq<string>, rollback: bool) {
    forall i, j :: 0 <= i < j < |s| ==> InOrder(key, s[i], s[j], rollback)
  }

  /** Prefixing an element that may precede every element keeps a sequence ordered. */
  lemma OrderedCons(key: string -> nat, a: string, t: seq<string>, rollback: bool)
    requires Ordered(key, t, rollback)
    requires forall y :: y in t ==> InOrder(key, a, y, rollback)
    ensures Ordered(key, [a] + t, rollback)
  {
    var r := [a] + t;
    forall i, j | 0 <= i < j < |r| ensures InOrder(key, r[i], r[j], rollback) {
      assert r[j] == t[j - 1];
      if i > 0 {
        assert r[i] == t[i - 1];
      }
    }
  }

  /** Inserts `x` before the first element it may precede; on equal keys `x` goes first. */
  function Insert(key: string -> nat, x: string, t: seq<string>, rollback: bool): (r: seq<string>)
    ensures multiset(r) == multiset(t) + multiset{x}
  {
    if t == [] || InOrder(key, x, t[0], rollback) then [x] + t
    else
      assert t == [t[0]] + t[1..];
      [t[0]] + Insert(key, x, t[1..], rollback)
  }

  lemma {:induction false} InsertOrdered(key: string -> nat, x: string, t: seq<string>, rollback: bool)
    requires Ordered(key, t, rollback)
    ensures Ordered(key, Insert(key, x, t, rollback), rollback)
  {
    if t == [] || InOrder(key, x, t[0], rollback) {
      forall y | y in t ensures InOrder(key, x, y, rollback) {
        var j :| 0 <= j < |t| && t[j] == y;
        assert j == 0 || InOrder(key, t[0], t[j], rollback);
      }
      OrderedCons(key, x, t, rollback);
    } else {
      var r' := Insert(key, x, t[1..], rollback);
      assert Ordered(key, t[1..], rollback) by {
        forall i, j | 0 <= i < j < |t[1..]| ensures InOrder(key, t[1..][i], t[1..][j], rollback) {
          assert t[1..][i] == t[i + 1] && t[1..][j] == t[j + 1];
        }
      }
      InsertOrdered(key, x, t[1..], rollback);
      forall y | y in r' ensures InOrder(key, t[0], y, rollback) {
        assert y in multiset(r');
        if y != x {
          assert y in multiset(t[1..]);
          var j :| 0 <= j < |t[1..]| && t[1..][j] == y;
          assert t[j + 1] == y;
        }
      }
      OrderedCons(key, t[0], r', rollback);
    }
  }

  /** A stable sort on the key (insertion sort), like `Array.prototype.sort` with the runner's comparator. */
  function SortBy(key: string -> nat, s: seq<string>, rollback: bool): (r: seq<string>)
    ensures multiset(r) == multiset(s)
  {
    if s == [] then []
    else
      assert s == [s[0]] + s[1..];
      Insert(key, s[0], SortBy(key, s[1..], rollback), rollback)
  }

  lemma {:induction false} SortOrdered(key: string -> nat, s: seq<string>, rollback: bool)
    ensures Ordered(key, SortBy(key, s, rollback), rollback)
  {
    if s != [] {
      SortOrdered(key, s[1..], rollback);
      InsertOrdered(key, s[0], SortBy(key, s[1..], rollback), rollback);
    }
  }

  /** The elements whose key is `k`, in the order `s` holds them. */
  function WithKey(key: string -> nat, s: seq<string>, k: nat): seq<string> {
    if s == [] then [] else (if key(s[0]) == k then [s[0]] else []) + WithKey(key, s[1..], k)
  }

  /** `WithKey` keeps exactly the elements of key `k`. */
  lemma {:induction false} WithKeyMembers(key: string -> nat, s: seq<string>, k: nat, x: string)
    ensures x in WithKey(key, s, k) <==> x in s && key(x) == k
  {
    if s != [] {
      WithKeyMembers(key, s[1..], k, x);
      assert x in s <==> x == s[0] || x in s[1..];
    }
  }

  lemma {:induction false} WithKeyAppend(key: string -> nat, a: seq<string>, b: seq<string>, k: nat)
    ensures WithKey(key, a + b, k) == WithKey(key, a, k) + WithKey(key, b, k)
  {
    if a == [] {
      assert a + b == b;
    } else {
      var h := if key(a[0]) == k then [a[0]] else [];
      assert a + b == [a[0]] + (a[1..] + b);
      assert [a[0]] + a[1..] == a;
      WithKeyCons(key, a[0], a[1..] + b, k);
      WithKeyCons(key, a[0], a[1..], k);
      WithKeyAppend(key, a[1..], b, k);
      assert h + (WithKey(key, a[1..], k) + WithKey(key, b, k)) == (h + WithKey(key, a[1..], k)) + WithKey(key, b, k);
    }
  }

  lemma WithKeyCons(key: string -> nat, a: string, s: seq<string>, k: nat)
    ensures WithKey(key, [a] + s, k) == (if key(a) == k then [a] else []) + WithKey(key, s, k)
  {
    assert ([a] + s)[1..] == s;
  }

  /** Two prefixes commute when one of them is empty. */
  lemma PrefixesCommute(p: seq<string>, q: seq<string>, w: seq<string>)
    requires p == [] || q == []
    ensures q + (p + w) == p + (q + w)
  {
    if p == [] {
      assert p + w == w && p + (q + w) == q + w;
    } else {
      assert q + (p + w) == p + w && q + w == w;
    }
  }

  lemma {:induction false} InsertKeepsTies(key: string -> nat, x: string, t: seq<string>, rollback: bool, k: nat)
    ensures WithKey(key, Insert(key, x, t, rollback), k) == (if key(x) == k then [x] else []) + WithKey(key, t, k)
  {
    if t == [] || InOrder(key, x, t[0], rollback) {
      assert Insert(key, x, t, rollback) == [x] + t;
      WithKeyCons(key, x, t, k);
    } else {
      var r' := Insert(key, x, t[1..], rollback);
      var p := if key(x) == k then [x] else [];
      var q := if key(t[0]) == k then [t[0]] else [];
      var w := WithKey(key, t[1..], k);
      assert Insert(key, x, t, rollback) == [t[0]] + r';
      InsertKeepsTies(key, x, t[1..], rollback, k);
      WithKeyCons(key, t[0], r', k);
      WithKeyCons(key, t[0], t[1..], k);
      assert [t[0]] + t[1..] == t;
      // x and t[0] do not both have key k: equal keys would have put x first.
      assert p == [] || q == [];
      PrefixesCommute(p, q, w);
    }
  }

  /** Stability: sorting keeps the relative order of the elements of each key. */
  lemma {:induction false} SortKeepsTies(key: string -> nat, s: seq<string>, rollback: bool, k: nat)
    ensures WithKey(key, SortBy(key, s, rollback), k) == WithKey(key, s, k)
  {
    if s != [] {
      SortKeepsTies(key, s[1..], rollback, k);
      InsertKeepsTies(key, s[0], SortBy(key, s[1..], rollback), rollback, k);
      WithKeyCons(key, s[0], s[1..], k);
      assert [s[0]] + s[1..] == s;
    }
  }

  /** Two orderings in the same direction that agree on the elements of every key are equal. */
  lemma {:induction false} OrderedUnique(key: string -> nat, a: seq<string>, b: seq<string>, rollback: bool)
    requires Ordered(key, a, rollback) && Ordered(key, b, rollback)
    requires forall k :: WithKey(key, a, k) == WithKey(key, b, k)
    ensures a == b
  {
    if a == [] && b == [] {
    } else if a == [] {
      WithKeyMembers(key, b, key(b[0]), b[0]);
      assert false;
    } else if b == [] {
      WithKeyMembers(key, a, key(a[0]), a[0]);
      assert false;
    } else {
      var ka, kb := key(a[0]), key(b[0]);
      WithKeyMembers(key, a, ka, a[0]);
      WithKeyMembers(key, b, ka, a[0]);
      WithKeyMembers(key, a, kb, b[0]);
      WithKeyMembers(key, b, kb, b[0]);
      assert a[0] in WithKey(key, b, ka);
      var j :| 0 <= j < |b| && b[j] == a[0];
      assert j == 0 || InOrder(key, b[0], b[j], rollback);
      assert b[0] in WithKey(key, a, kb);
      var i :| 0 <= i < |a| && a[i] == b[0];
      assert i == 0 || InOrder(key, a[0], a[i], rollback);
      assert ka == kb;
      assert WithKey(key, a, ka)[0] == a[0] && WithKey(key, b, ka)[0] == b[0];
      forall k ensures WithKey(key, a[1..], k) == WithKey(key, b[1..], k) {
        var p := if key(a[0]) == k then [a[0]] else [];
        assert WithKey(key, a, k) == p + WithKey(key, a[1..], k);
        assert WithKey(key, b, k) == p + WithKey(key, b[1..], k);
        assert WithKey(key, a[1..], k) == (p + WithKey(key, a[1..], k))[|p|..];
        assert WithKey(key, b[1..], k) == (p + WithKey(key, b[1..], k))[|p|..];
      }
      OrderedUnique(key, a[1..], b[1..], rollback);
      assert a == [a[0]] + a[1..] && b == [b[0]] + b[1..];
    }
  }

  function Reverse(s: seq<string>): (r: seq<string>)
    ensures |r| == |s|
    ensures forall i :: 0 <= i < |s| ==> r[i] == s[|s| - 1 - i]
  {
    if s == [] then [] else Reverse(s[1..]) + [s[0]]
  }

  lemma {:induction false} WithKeyReverse(key: string -> nat, s: seq<string>, k: nat)
    ensures WithKey(key, Reverse(s), k) == Reverse(WithKey(key, s, k))
  {
    if s != [] {
      var w' := WithKey(key, s[1..], k);
      WithKeyReverse(key, s[1..], k);
      assert Reverse(s) == Reverse(s[1..]) + [s[0]];
      WithKeyAppend(key, Reverse(s[1..]), [s[0]], k);
      assert WithKey(key, [s[0]], k) == (if key(s[0]) == k then [s[0]] else []) + WithKey(key, [], k);
      if key(s[0]) == k {
        assert WithKey(key, s, k) == [s[0]] + w';
        assert ([s[0]] + w')[1..] == w';
        assert Reverse([s[0]] + w') == Reverse(w') + [s[0]];
      } else {
        assert WithKey(key, s, k) == [] + w';
        assert [] + w' == w';
      }
    }
  }

  /** Reversing an ascending sequence gives a descending one. */
  lemma ReverseOrdered(key: string -> nat, s: seq<string>)
    requires Ordered(key, s, false)
    ensures Ordered(key, Reverse(s), true)
  {
    var r := Reverse(s);
    forall i, j | 0 <= i < j < |r| ensures InOrder(key, r[i], r[j], true) {
      assert r[i] == s[|s| - 1 - i] && r[j] == s[|s| - 1 - j];
    }
  }

  /** Reversing leaves the elements of a key alone when there is at most one of them. */
  lemma ReverseSingleTie(key: string -> nat, s: seq<string>, k: nat)
    requires |WithKey(key, s, k)| <= 1
    ensures WithKey(key, Reverse(s), k) == WithKey(key, s, k)
  {
    WithKeyReverse(key, s, k);
    var w := WithKey(key, s, k);
    assert Reverse(w) == w;
  }

  /** Sorting one way and reversing is sorting the other way, when no two elements share a key. */
  lemma ReverseOfDistinctKeys(key: string -> nat, s: seq<string>)
    requires forall k :: |WithKey(key, s, k)| <= 1
    ensures SortBy(key, s, true) == Reverse(SortBy(key, s, false))
  {
    var up, down := SortBy(key, s, false), SortBy(key, s, true);
    SortOrdered(key, s, false);
    SortOrdered(key, s, true);
    ReverseOrdered(key, up);
    forall k ensures WithKey(key, Reverse(up), k) == WithKey(key, down, k) {
      SortKeepsTies(key, s, false, k);
      SortKeepsTies(key, s, true, k);
      ReverseSingleTie(key, up, k);
    }
    OrderedUnique(key, Reverse(up), down, true);
  }

  /** The migration files to run: the selected entries, sorted by revision, descending on rollback. */
  function MigrationFiles(listing: seq<string>, fromRevision: int, rollback: bool): (r: seq<string>)
    ensures forall f :: f in r <==> f in listing && Selected(f, fromRevision)
    ensures multiset(r) <= multiset(listing)
  {
    var selected := Select(listing, fromRevision);
    var sorted := SortBy(RevValue, selected, rollback);
    assert forall f :: f in sorted <==> f in multiset(sorted);
    assert forall f :: f in selected <==> f in multiset(selected);
    sorted
  }

  /**
   * A file is run exactly when it is in the listing, does not start with '.',
   * ends with ".js" and has a revision (its name starts with a digit) at least
   * `fromRevision`; the rollback flag plays no part in this.
   */
  lemma MigrationFilesSelection(listing: seq<string>, fromRevision: int, rollback: bool, f: string)
    ensures f in MigrationFiles(listing, fromRevision, rollback) <==>
              f in listing && (f == [] || f[0] != '.') && |f| >= 3 && f[|f| - 3..] == ".js"
              && RevOf(f).Some? && RevOf(f).value >= fromRevision
    ensures RevOf(f).None? ==> f !in MigrationFiles(listing, fromRevision, rollback)
  {
    var sel := Select(listing, fromRevision);
    var files := SortBy(RevValue, sel, rollback);
    assert f in files <==> f in multiset(files);
    assert f in sel <==> f in multiset(sel);
    assert f in files <==> f in listing && Selected(f, fromRevision);
  }

  /** Selection is an order-preserving filter: the selected entries of each key come in listing order. */
  lemma {:induction false} SelectKeepsOrder(key: string -> nat, listing: seq<string>, fromRevision: int, k: nat)
    ensures WithKey(key, Select(listing, fromRevision), k) == Select(WithKey(key, listing, k), fromRevision)
  {
    if listing != [] {
      var a, t := listing[0], listing[1..];
      SelectKeepsOrder(key, t, fromRevision, k);
      var w := WithKey(key, t, k);
      if key(a) == k {
        assert WithKey(key, listing, k) == [a] + w;
        assert ([a] + w)[0] == a && ([a] + w)[1..] == w;
      } else {
        assert WithKey(key, listing, k) == [] + w == w;
      }
      if Selected(a, fromRevision) {
        WithKeyCons(key, a, Select(t, fromRevision), k);
      } else {
        assert Select(listing, fromRevision) == [] + Select(t, fromRevision) == Select(t, fromRevision);
      }
    }
  }

  /**
   * The files to run come in non-decreasing revision order, non-increasing on
   * rollback, and files of equal revision keep the order of the listing.
   */
  lemma MigrationFilesOrder(listing: seq<string>, fromRevision: int, rollback: bool)
    ensures forall i, j :: 0 <= i < j < |MigrationFiles(listing, fromRevision, rollback)| ==>
              var files := MigrationFiles(listing, fromRevision, rollback);
              if rollback then RevValue(files[i]) >= RevValue(files[j]) else RevValue(files[i]) <= RevValue(files[j])
    ensures forall k :: WithKey(RevValue, MigrationFiles(listing, fromRevision, rollback), k)
                        == WithKey(RevValue, Select(listing, fromRevision), k)
                        == Select(WithKey(RevValue, listing, k), fromRevision)
  {
    var files := MigrationFiles(listing, fromRevision, rollback);
    SortOrdered(RevValue, Select(listing, fromRevision), rollback);
    forall k ensures WithKey(RevValue, files, k) == WithKey(RevValue, Select(listing, fromRevision), k)
                     == Select(WithKey(RevValue, listing, k), fromRevision) {
      SortKeepsTies(RevValue, Select(listing, fromRevision), rollback, k);
      SelectKeepsOrder(RevValue, listing, fromRevision, k);
    }
  }

  /** No file is invented or duplicated: each name occurs at most as often as in the listing. */
  lemma MigrationFilesFromListing(listing: seq<string>, fromRevision: int, rollback: bool)
    ensures multiset(MigrationFiles(listing, fromRevision, rollback)) <= multiset(listing)
    ensures (forall x :: multiset(listing)[x] <= 1) ==>
              forall x :: multiset(MigrationFiles(listing, fromRevision, rollback))[x] <= 1
  {
  }

  /**
   * The rollback flag changes the order only: both modes run the same files,
   * and when no two selected files share a revision the rollback order is the
   * exact reverse of the forward order.
   */
  lemma RollbackOnlyReorders(listing: seq<string>, fromRevision: int)
    ensures multiset(MigrationFiles(listing, fromRevision, true))
            == multiset(MigrationFiles(listing, fromRevision, false))
    ensures (forall k :: |WithKey(RevValue, Select(listing, fromRevision), k)| <= 1) ==>
              MigrationFiles(listing, fromRevision, true) == Reverse(MigrationFiles(listing, fromRevision, false))
  {
    if forall k :: |WithKey(RevValue, Select(listing, fromRevision), k)| <= 1 {
      ReverseOfDistinctKeys(RevValue, Select(listing, fromRevision));
    }
  }

  /** "1-a.js" and "1-b.js" are both selected from revision 0 on, and both have revision 1. */
  lemma SampleNamesOfRevisionOne()
    ensures Selected("1-a.js", 0) && RevValue("1-a.js") == 1
    ensures Selected("1-b.js", 0) && RevValue("1-b.js") == 1
  {
    RevOfNumberedName(1, "-a.js");
    RevOfNumberedName(1, "-b.js");
    assert Decimal(1) == "1";
    assert Decimal(1) + "-a.js" == "1-a.js" && Decimal(1) + "-b.js" == "1-b.js";
  }

  /** Two runnable files of equal revision run in listing order, forwards and on rollback alike. */
  lemma EqualRevisionsKeepListingOrder(fa: string, fb: string, fromRevision: int, rollback: bool)
    requires Selected(fa, fromRevision) && Selected(fb, fromRevision)
    requires RevValue(fa) == RevValue(fb)
    ensures MigrationFiles([fa, fb], fromRevision, rollback) == [fa, fb]
  {
    var l := [fa, fb];
    assert Select(l, fromRevision) == l by {
      assert l[1..] == [fb] && l[1..][1..] == [];
      assert Select([fb], fromRevision) == [fb];
    }
    assert SortBy(RevValue, [fb], rollback) == [fb];
    assert Insert(RevValue, fa, [fb], rollback) == l;
  }

  /** So rollback does not reverse "1-a.js", "1-b.js": both modes run them in that order. */
  lemma TiesKeepListingOrderOnRollback()
    ensures MigrationFiles(["1-a.js", "1-b.js"], 0, true) == ["1-a.js", "1-b.js"]
    ensures MigrationFiles(["1-a.js", "1-b.js"], 0, false) == ["1-a.js", "1-b.js"]
  {
    SampleNamesOfRevisionOne();
    EqualRevisionsKeepListingOrder("1-a.js", "1-b.js", 0, true);
    EqualRevisionsKeepListingOrder("1-a.js", "1-b.js", 0, false);
  }

  // ---------------------------------------------------------------------------
  // Running the batch
  // ---------------------------------------------------------------------------

  /**
   * The position each file of the batch starts from, as a state machine: the
   * current position is handed to the file and is reset to 0 after a success.
   */
  function Positions(start: int, outcomes: seq<bool>): (ps: seq<int>)
    ensures |ps| == |outcomes|
    ensures outcomes != [] ==> ps[0] == start
    ensures forall i :: 0 <= i < |ps| ==> ps[i] == start || ps[i] == 0
    decreases outcomes
  {
    if outcomes == [] then [] else [start] + Positions(if outcomes[0] then 0 else start, outcomes[1..])
  }

  /** File `i` starts at the given position until some earlier file has succeeded, at 0 afterwards. */
  lemma {:induction false} PositionsClosedForm(start: int, outcomes: seq<bool>, i: nat)
    requires i < |outcomes|
    decreases i
    ensures Positions(start, outcomes)[i] == if true in outcomes[..i] then 0 else start
  {
    if i > 0 {
      PositionsClosedForm(if outcomes[0] then 0 else start, outcomes[1..], i - 1);
      assert outcomes[..i] == [outcomes[0]] + outcomes[1..][..i - 1];
    }
  }

  /** The `executeMigration` call for each file, given the positions. */
  function BatchCalls(dir: string, files: seq<string>, useTransaction: bool, positions: seq<int>, rollback: bool)
    : (calls: seq<ExecuteCall>)
    requires |positions| == |files|
    ensures |calls| == |files|
  {
    seq(|files|, i requires 0 <= i < |files| => ExecuteCall(Join(dir, files[i]), useTransaction, positions[i], rollback))
  }

  /**
   * The `eachSeries` loop: each file in turn is executed from the current
   * position, a failure is caught and the loop goes on, and a success resets
   * the position to 0. With `stop` (`--one`) the first call's callback returns
   * without settling its promise, so nothing after the first call happens and
   * the batch never completes. `outcomes[i]` says whether the i-th call succeeds.
   */
  method RunBatch(dir: string, files: seq<string>, useTransaction: bool, startPos: int, rollback: bool,
                  stop: bool, outcomes: seq<bool>)
    returns (calls: seq<ExecuteCall>, completed: bool)
    requires |outcomes| == |files|
    ensures completed <==> !stop || files == []
    ensures calls == BatchCalls(dir, files, useTransaction, Positions(startPos, outcomes), rollback)
                       [..if completed then |files| else 1]
  {
    var fromPos := startPos;
    calls := [];
    completed := true;
    var i := 0;
    while i < |files|
      invariant 0 <= i <= |files|
      invariant stop ==> i == 0
      invariant fromPos == if true in outcomes[..i] then 0 else startPos
      invariant calls == BatchCalls(dir, files, useTransaction, Positions(startPos, outcomes), rollback)[..i]
    {
      PositionsClosedForm(startPos, outcomes, i);
      calls := calls + [ExecuteCall(Join(dir, files[i]), useTransaction, fromPos, rollback)];
      if stop {
        completed := false;
        return;
      }
      if outcomes[i] {
        fromPos := 0;
      }
      assert outcomes[..i + 1] == outcomes[..i] + [outcomes[i]];
      i := i + 1;
    }
  }

  // ---------------------------------------------------------------------------
  // The command
  // ---------------------------------------------------------------------------

  /** The parsed options: `rev` and `pos` are None when not given; flags not given are false. */
  datatype RunArgs = RunArgs(
    rev: Option<int>, rollback: bool, pos: Option<int>, noTransaction: bool,
    one: bool, list: bool, help: bool, paths: PathConfig.PathSettings)

  datatype RunStatus = ConfigError | MissingModels | MissingMigrations | HelpShown | Listed | Completed | Halted

  /** How the command ends (`exitCode` None: the process is not ended by the command), the files it lists, the calls it makes. */
  datatype RunReport = RunReport(status: RunStatus, exitCode: Option<int>, listed: seq<string>, calls: seq<ExecuteCall>)

  /** `rev`, defaulting to 0. */
  function FromRevision(args: RunArgs): int {
    if args.rev.Some? then args.rev.value else 0
  }

  /** `pos`, defaulting to 0. */
  function StartPosition(args: RunArgs): int {
    if args.pos.Some? then args.pos.value else 0
  }

  /**
   * The whole command: resolve the directories, require `<models>/index.js`
   * and the migrations directory to exist (before `--help` is looked at),
   * list the files, stop on `--list`, else run the batch with transactions
   * unless `--no-transaction`. `outcome(i)` says whether the i-th call succeeds.
   */
  method RunMigrationCli(env: PathConfig.Env, args: RunArgs, rcFiles: map<string, PathConfig.RcExport>,
                         existing: set<string>, listing: seq<string>, outcome: nat -> bool)
    returns (report: RunReport)
    ensures PathConfig.Resolve(env, args.paths, rcFiles).dirs.None? ==> report == RunReport(ConfigError, Some(1), [], [])
    ensures PathConfig.Resolve(env, args.paths, rcFiles).dirs.Some? ==>
      var dirs := PathConfig.Resolve(env, args.paths, rcFiles).dirs.value;
      var files := MigrationFiles(listing, FromRevision(args), args.rollback);
      && (dirs.modelsDir + "/index.js" !in existing ==> report == RunReport(MissingModels, Some(1), [], []))
      && (dirs.modelsDir + "/index.js" in existing && dirs.migrationsDir !in existing ==>
            report == RunReport(MissingMigrations, Some(1), [], []))
      && (dirs.modelsDir + "/index.js" in existing && dirs.migrationsDir in existing ==>
            && (args.help ==> report == RunReport(HelpShown, Some(0), [], []))
            && (!args.help ==> report.listed == files)
            && (!args.help && args.list ==> report == RunReport(Listed, Some(0), files, []))
            && (!args.help && !args.list ==>
                  var all := BatchCalls(dirs.migrationsDir, files, !args.noTransaction,
                                        Positions(StartPosition(args), seq(|files|, i requires 0 <= i => outcome(i))), args.rollback);
                  if args.one && files != [] then report == RunReport(Halted, None, files, all[..1])
                  else report == RunReport(Completed, Some(0), files, all)))
  {
    var resolution := PathConfig.Resolve(env, args.paths, rcFiles);
    if resolution.dirs.None? {
      return RunReport(ConfigError, Some(1), [], []);
    }
    var dirs := resolution.dirs.value;
    if dirs.modelsDir + "/index.js" !in existing {
      return RunReport(MissingModels, Some(1), [], []);
    }
    if dirs.migrationsDir !in existing {
      return RunReport(MissingMigrations, Some(1), [], []);
    }
    if args.help {
      return RunReport(HelpShown, Some(0), [], []);
    }
    var files := MigrationFiles(listing, FromRevision(args), args.rollback);
    if args.list {
      return RunReport(Listed, Some(0), files, []);
    }
    var outcomes := seq(|files|, i requires 0 <= i => outcome(i));
    var calls, completed := RunBatch(dirs.migrationsDir, files, !args.noTransaction, StartPosition(args),
                                     args.rollback, args.one, outcomes);
    if completed {
      report := RunReport(Completed, Some(0), files, calls);
    } else {
      report := RunReport(Halted, None, files, calls);
    }
  }

  /**
   * With the defaults (no `--rev` or `--pos`), every
   * numbered script of the listing is run, the first from position 0.
   */
  lemma DefaultsRunEverything(args: RunArgs, listing: seq<string>, f: string)
    requires args.rev.None? && args.pos.None?
    requires f in listing && IsScript(f) && RevOf(f).Some?
    ensures FromRevision(args) == 0 && StartPosition(args) == 0
    ensures f in MigrationFiles(listing, FromRevision(args), args.rollback)
  {
    MigrationFilesSelection(listing, FromRevision(args), args.rollback, f);
  }
}
