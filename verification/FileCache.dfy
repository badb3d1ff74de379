/** The file cache: an unbalanced search tree from MD5 key to file, with the seeders of each file. */
module FileCache {
  const FILE_NAME_SIZE: nat := 256
  const FILE_KEY_SIZE: nat := 32
  const FILE_IP_SIZE: nat := 16

  datatype Seeder = Seeder(ip: string, port: int)

  datatype Entry = Entry(filename: string, size: nat, seeders: seq<Seeder>)

  /** The arguments of one file_cache_add. */
  datatype Call = Call(filename: string, key: string, size: nat, seeder: Seeder)

  // ----- strcmp orders strings

  function Strcmp(a: string, b: string): int {
    if a == b then 0
    else if a == "" then -1
    else if b == "" then 1
    else if a[0] != b[0] then a[0] as int - b[0] as int
    else Strcmp(a[1..], b[1..])
  }

  lemma {:induction false} StrcmpZero(a: string, b: string)
    ensures Strcmp(a, b) == 0 <==> a == b
  {
    if a != "" && b != "" && a[0] == b[0] {
      assert a == [a[0]] + a[1..] && b == [b[0]] + b[1..];
      StrcmpZero(a[1..], b[1..]);
    }
  }

  lemma {:induction false} StrcmpAntisymmetric(a: string, b: string)
    ensures Strcmp(a, b) < 0 <==> Strcmp(b, a) > 0
  {
    if a != "" && b != "" && a[0] == b[0] {
      StrcmpAntisymmetric(a[1..], b[1..]);
    }
  }

  /** They agree up to position k, and there a ends or has the smaller character. */
  ghost predicate DiffersAt(a: string, b: string, k: nat) {
    k <= |a| && k < |b| && a[..k] == b[..k] && (k < |a| ==> a[k] < b[k])
  }

  /** It is negative exactly if a comes before b in the order of a dictionary. */
  lemma {:induction false} StrcmpLess(a: string, b: string)
    ensures Strcmp(a, b) < 0 <==> exists k: nat :: DiffersAt(a, b, k)
  {
    if a == "" {
      if b != "" { assert DiffersAt(a, b, 0); }
    } else if b != "" {
      if a[0] != b[0] {
        if a[0] < b[0] { assert DiffersAt(a, b, 0); }
        if k: nat :| DiffersAt(a, b, k) { FirstDiffers(a, b, k); }
      } else {
        StrcmpLess(a[1..], b[1..]);
        StrcmpTails(a, b);
        if k: nat :| DiffersAt(a[1..], b[1..], k) { DifferLater(a, b, k + 1); }
        if k: nat :| DiffersAt(a, b, k) { FirstDiffers(a, b, k); }
      }
    }
  }

  lemma StrcmpTails(a: string, b: string)
    requires a != "" && b != "" && a[0] == b[0]
    ensures Strcmp(a, b) == Strcmp(a[1..], b[1..])
  {
    assert a == [a[0]] + a[1..] && b == [b[0]] + b[1..];
  }

  lemma FirstDiffers(a: string, b: string, k: nat)
    requires a != "" && b != "" && DiffersAt(a, b, k)
    ensures if k == 0 then a[0] < b[0] else a[0] == b[0] && DiffersAt(a[1..], b[1..], k - 1)
  {
    if k > 0 {
      assert a[0] == a[..k][0] && b[0] == b[..k][0];
      assert a[1..][..k - 1] == a[..k][1..] && b[1..][..k - 1] == b[..k][1..];
    }
  }

  lemma DifferLater(a: string, b: string, k: nat)
    requires a != "" && b != "" && a[0] == b[0] && k > 0 && DiffersAt(a[1..], b[1..], k - 1)
    ensures DiffersAt(a, b, k)
  {
    assert a[..k] == [a[0]] + a[1..][..k - 1] && b[..k] == [b[0]] + b[1..][..k - 1];
  }

  // ----- fixed-size buffers

  /** The n characters that strncpy writes. */
  function Strncpy(s: string, n: nat): (buffer: string)
    ensures |buffer| == n
  {
    if |s| >= n then s[..n] else s + seq(n - |s|, _ => '\0')
  }

  /** The characters before the first NUL, or all of them. */
  function CString(buffer: string): string {
    if buffer == "" || buffer[0] == '\0' then "" else [buffer[0]] + CString(buffer[1..])
  }

  lemma {:induction false} CStringWhole(s: string, rest: string)
    requires '\0' !in s && (rest == "" || rest[0] == '\0')
    ensures CString(s + rest) == s
  {
    if s == "" {
      assert s + rest == rest;
    } else {
      assert (s + rest)[1..] == s[1..] + rest;
      CStringWhole(s[1..], rest);
    }
  }

  /** A buffer of size characters and a NUL is terminated, and holds the string, if and only if the string fits. */
  lemma BufferHolds(s: string, size: nat)
    requires '\0' !in s
    ensures '\0' in Strncpy(s, size + 1) <==> |s| <= size
    ensures CString(Strncpy(s, size + 1)) == s <==> |s| <= size + 1
    ensures |s| > size + 1 ==> CString(Strncpy(s, size + 1)) == s[..size + 1]
  {
    var buffer := Strncpy(s, size + 1);
    if |s| <= size {
      assert buffer[size] == '\0';
      CStringWhole(s, buffer[|s|..]);
      assert buffer == s + buffer[|s|..];
    } else {
      CStringWhole(buffer, "");
      assert buffer + "" == buffer;
    }
  }

  /** What file_cache_new stores of a seeder: an address that is too long is cut off, without a NUL behind it. */
  function Stored(s: Seeder): Seeder {
    if |s.ip| > FILE_IP_SIZE then s.(ip := s.ip[..FILE_IP_SIZE + 1]) else s
  }

  lemma StoredIsBuffer(s: Seeder)
    requires '\0' !in s.ip
    ensures Stored(s).ip == CString(Strncpy(s.ip, FILE_IP_SIZE + 1))
    ensures '\0' in Strncpy(s.ip, FILE_IP_SIZE + 1) <==> |s.ip| <= 16
    ensures Stored(s) == s <==> |s.ip| <= 17
  {
    BufferHolds(s.ip, FILE_IP_SIZE);
    if |s.ip| == FILE_IP_SIZE + 1 { assert s.ip[..FILE_IP_SIZE + 1] == s.ip; }
  }

  /** The name and the key that file_cache_new accepts always fit. */
  lemma AcceptedFit(c: Call)
    requires |c.filename| <= 256 && |c.key| == 32 && '\0' !in c.filename && '\0' !in c.key
    ensures CString(Strncpy(c.filename, FILE_NAME_SIZE + 1)) == c.filename &&
        '\0' in Strncpy(c.filename, FILE_NAME_SIZE + 1)
    ensures CString(Strncpy(c.key, FILE_KEY_SIZE + 1)) == c.key && '\0' in Strncpy(c.key, FILE_KEY_SIZE + 1)
  {
    BufferHolds(c.filename, FILE_NAME_SIZE);
    BufferHolds(c.key, FILE_KEY_SIZE);
  }

  // ----- the cache as a plain map

  predicate Acceptable(c: Call) {
    |c.filename| <= FILE_NAME_SIZE && |c.key| == FILE_KEY_SIZE
  }

  function AddToMap(m: map<string, Entry>, c: Call): (m': map<string, Entry>)
    ensures forall k :: k != c.key ==> (k in m' <==> k in m) && (k in m ==> m'[k] == m[k])
  {
    if c.key in m then
      var e := m[c.key];
      if c.seeder in e.seeders then m else m[c.key := e.(seeders := [c.seeder] + e.seeders)]
    else if Acceptable(c) then m[c.key := Entry(c.filename, c.size, [c.seeder])]
    else m
  }

  /** m is the map of a node for key with entry e above the maps of its two sides. */
  ghost predicate Combined(m: map<string, Entry>, left: map<string, Entry>, right: map<string, Entry>, key: string,
      e: Entry) {
    && (forall k :: k in m <==> k in left || k in right || k == key)
    && (forall k <- left :: k !in right && k != key && m[k] == left[k])
    && (forall k <- right :: k != key && m[k] == right[k])
    && m[key] == e
  }

  lemma CombinedLeft(m: map<string, Entry>, left: map<string, Entry>, right: map<string, Entry>, key: string,
      e: Entry, c: Call)
    requires Combined(m, left, right, key, e) && c.key != key && c.key !in right
    ensures Combined(AddToMap(m, c), AddToMap(left, c), right, key, e)
  {
  }

  lemma CombinedRight(m: map<string, Entry>, left: map<string, Entry>, right: map<string, Entry>, key: string,
      e: Entry, c: Call)
    requires Combined(m, left, right, key, e) && c.key != key && c.key !in left
    ensures Combined(AddToMap(m, c), left, AddToMap(right, c), key, e)
  {
  }

  lemma CombinedHere(m: map<string, Entry>, left: map<string, Entry>, right: map<string, Entry>, e: Entry, c: Call)
    requires Combined(m, left, right, c.key, e)
    ensures AddToMap(m, c) == if c.seeder in e.seeders then m else m[c.key := e.(seeders := [c.seeder] + e.seeders)]
    ensures Combined(m[c.key := e.(seeders := [c.seeder] + e.seeders)], left, right, c.key,
        e.(seeders := [c.seeder] + e.seeders))
  {
  }

  // ----- the tree

  class Node {
    const filename: string
    const key: string
    const size: nat
    var seeders: seq<Seeder>
    var left: Node?
    var right: Node?
    ghost var Contents: map<string, Entry>
    ghost var Repr: set<Node>

    /** A search tree without sharing; Contents is the map it stands for. */
    ghost predicate Valid()
      reads this, Repr
      decreases Repr
    {
      && this in Repr
      && (left != null ==>
            && left in Repr && left.Repr <= Repr && this !in left.Repr && left.Valid()
            && forall k <- left.Contents :: Strcmp(k, key) < 0)
      && (right != null ==>
            && right in Repr && right.Repr <= Repr && this !in right.Repr && right.Valid()
            && forall k <- right.Contents :: Strcmp(key, k) < 0)
      && (left != null && right != null ==> left.Repr !! right.Repr)
      && Combined(Contents, Map(left), Map(right), key, Entry(filename, size, seeders))
    }

    constructor (c: Call)
      ensures Valid() && fresh(Repr) && Repr == {this}
      ensures Contents == map[c.key := Entry(c.filename, c.size, [c.seeder])]
    {
      filename, key, size := c.filename, c.key, c.size;
      seeders := [c.seeder];
      left, right := null, null;
      Contents := map[c.key := Entry(c.filename, c.size, [c.seeder])];
      Repr := {this};
    }

    /** The key is already there: its seeder is prepended unless it is registered. */
    method AddSeeder(c: Call)
      requires Valid() && c.key == key
      modifies this
      ensures Valid() && Repr == old(Repr) && Contents == AddToMap(old(Contents), c)
    {
      hide Strcmp, AddToMap, Combined;
      CombinedHere(Contents, Map(left), Map(right), Entry(filename, size, seeders), c);
      var i := 0;
      while i < |seeders|
        invariant i <= |seeders| && c.seeder !in seeders[..i]
      {
        if seeders[i] == c.seeder {
          return;
        }
        i := i + 1;
      }
      seeders := [c.seeder] + seeders;
      Contents := AddToMap(Contents, c);
    }

    /** Stores the changed left side. */
    method PutLeft(t: Node?, ghost contents: map<string, Entry>)
      requires this in Repr && ValidTree(t) && this !in Nodes(t)
      requires ValidTree(right) && right != null ==> right in Repr && right.Repr <= Repr && this !in right.Repr
      requires ValidTree(right) && Nodes(t) !! Nodes(right)
      requires forall k <- Map(t) :: Strcmp(k, key) < 0
      requires forall k <- Map(right) :: Strcmp(key, k) < 0
      requires Combined(contents, Map(t), Map(right), key, Entry(filename, size, seeders))
      modifies this
      ensures Valid() && Contents == contents && Repr == old(Repr) + Nodes(t)
    {
      hide Strcmp, Combined;
      left := t;
      Contents, Repr := contents, Repr + Nodes(t);
    }

    /** Stores the changed right side. */
    method PutRight(t: Node?, ghost contents: map<string, Entry>)
      requires this in Repr && ValidTree(t) && this !in Nodes(t)
      requires ValidTree(left) && left != null ==> left in Repr && left.Repr <= Repr && this !in left.Repr
      requires ValidTree(left) && Nodes(t) !! Nodes(left)
      requires forall k <- Map(t) :: Strcmp(key, k) < 0
      requires forall k <- Map(left) :: Strcmp(k, key) < 0
      requires Combined(contents, Map(left), Map(t), key, Entry(filename, size, seeders))
      modifies this
      ensures Valid() && Contents == contents && Repr == old(Repr) + Nodes(t)
    {
      hide Strcmp, Combined;
      right := t;
      Contents, Repr := contents, Repr + Nodes(t);
    }
  }

  ghost function Map(tree: Node?): map<string, Entry>
    reads tree
  {
    if tree == null then map[] else tree.Contents
  }

  ghost function Nodes(tree: Node?): set<Node>
    reads tree
  {
    if tree == null then {} else tree.Repr
  }

  ghost predicate ValidTree(tree: Node?)
    reads tree, Nodes(tree)
  {
    tree != null ==> tree.Valid()
  }

  /** file_cache_new: the name is tested before the key. */
  method New(c: Call) returns (r: Node?)
    ensures r != null <==> |c.filename| <= 256 && |c.key| == 32
    ensures ValidTree(r) && fresh(Nodes(r)) && Map(r) == AddToMap(map[], Kept(c))
  {
    if |c.filename| > FILE_NAME_SIZE {
      return null;
    }
    if |c.key| != FILE_KEY_SIZE {
      return null;
    }
    r := new Node(Kept(c));
  }

  /** The call with the seeder as it would be stored in a new entry. */
  function Kept(c: Call): Call {
    c.(seeder := Stored(c.seeder))
  }

  predicate Fits(s: Seeder) {
    |s.ip| <= FILE_IP_SIZE
  }

  /** The code stays inside its buffers: strcpy and strcmp are applied to seeders of an existing entry only, and these
      and the new address must be terminated. */
  predicate Defined(m: map<string, Entry>, c: Call) {
    c.key in m ==> Fits(c.seeder) && forall s <- m[c.key].seeders :: Fits(s)
  }

  lemma DefinedBelow(m: map<string, Entry>, left: map<string, Entry>, right: map<string, Entry>, key: string, e: Entry,
      c: Call)
    requires Combined(m, left, right, key, e) && Defined(m, c) && c.key != key
    ensures Defined(left, c) && Defined(right, c)
  {
  }

  lemma KeptIs(tree: Node, c: Call)
    requires ValidTree(tree) && Defined(Map(tree), c)
    ensures Kept(c).key == c.key && (c.key == tree.key ==> Kept(c) == c)
  {
  }

  /** file_cache_add */
  method Add(tree: Node?, c: Call) returns (r: Node?)
    requires ValidTree(tree) && Defined(Map(tree), c)
    modifies Nodes(tree)
    ensures ValidTree(r) && fresh(Nodes(r) - old(Nodes(tree)))
    ensures tree != null ==> r == tree
    ensures Map(r) == AddToMap(old(Map(tree)), Kept(c))
    decreases Nodes(tree)
  {
    hide Strcmp, AddToMap, Combined, Defined, Kept;
    if tree == null {
      r := New(c);
      return;
    }
    KeptIs(tree, c);
    r := tree;
    var bias := Strcmp(c.key, tree.key);
    StrcmpZero(c.key, tree.key);
    StrcmpAntisymmetric(c.key, tree.key);
    StrcmpAntisymmetric(tree.key, c.key);
    ghost var left, right, own := Map(tree.left), Map(tree.right), Entry(tree.filename, tree.size, tree.seeders);
    ghost var leftNodes, rightNodes := Nodes(tree.left), Nodes(tree.right);
    assert ValidTree(tree.left) && ValidTree(tree.right) && leftNodes !! rightNodes && tree !in leftNodes + rightNodes;
    if bias < 0 {
      CombinedLeft(tree.Contents, left, right, tree.key, own, Kept(c));
      DefinedBelow(tree.Contents, left, right, tree.key, own, c);
      var t := Add(tree.left, c);
      assert Nodes(tree.right) == rightNodes && ValidTree(tree.right) && tree !in Nodes(t);
      tree.PutLeft(t, AddToMap(tree.Contents, Kept(c)));
    } else if bias > 0 {
      CombinedRight(tree.Contents, left, right, tree.key, own, Kept(c));
      DefinedBelow(tree.Contents, left, right, tree.key, own, c);
      var t := Add(tree.right, c);
      assert Nodes(tree.left) == leftNodes && ValidTree(tree.left) && tree !in Nodes(t);
      tree.PutRight(t, AddToMap(tree.Contents, Kept(c)));
    } else {
      tree.AddSeeder(c);
    }
  }

  /** file_cache_get_by_key agrees with the map. */
  function GetByKey(tree: Node?, key: string): (r: Node?)
    requires ValidTree(tree)
    reads tree, Nodes(tree)
    ensures r == null <==> key !in Map(tree)
    ensures r != null ==> r.key == key && Map(tree)[key] == Entry(r.filename, r.size, r.seeders)
    decreases Nodes(tree)
  {
    if tree == null then null
    else
      var compare := Strcmp(key, tree.key);
      StrcmpZero(key, tree.key);
      StrcmpAntisymmetric(key, tree.key);
      StrcmpAntisymmetric(tree.key, key);
      if compare == 0 then tree
      else if compare < 0 then GetByKey(tree.left, key)
      else GetByKey(tree.right, key)
  }

  // ----- any sequence of additions

  function Run(calls: seq<Call>): map<string, Entry> {
    if calls == [] then map[] else AddToMap(Run(calls[..|calls| - 1]), calls[|calls| - 1])
  }

  function KeptAll(calls: seq<Call>): (kept: seq<Call>)
    ensures |kept| == |calls|
  {
    seq(|calls|, i requires 0 <= i < |calls| => Kept(calls[i]))
  }

  /** Every call of the history stays inside the buffers. */
  ghost predicate DefinedRun(calls: seq<Call>) {
    forall n :: 0 <= n < |calls| ==> Defined(Run(KeptAll(calls)[..n]), calls[n])
  }

  /** The daemon's use of the cache: tree = file_cache_add (tree, ...), again and again. */
  method AddAll(calls: seq<Call>) returns (tree: Node?)
    requires DefinedRun(calls)
    ensures ValidTree(tree) && Map(tree) == Run(KeptAll(calls))
  {
    hide AddToMap, Defined;
    tree := null;
    ghost var kept := KeptAll(calls);
    for k := 0 to |calls|
      invariant ValidTree(tree) && fresh(Nodes(tree)) && Map(tree) == Run(kept[..k])
    {
      assert kept[..k + 1][..k] == kept[..k] && kept[k] == Kept(calls[k]);
      assert Defined(Run(kept[..k]), calls[k]);
      tree := Add(tree, calls[k]);
    }
    assert kept[..|calls|] == kept;
  }

  lemma {:induction false} SeedersFit(calls: seq<Call>, key: string)
    requires forall c <- calls :: Fits(c.seeder)
    ensures key in Run(calls) ==> forall s <- Run(calls)[key].seeders :: Fits(s)
  {
    if calls != [] {
      SeedersFit(calls[..|calls| - 1], key);
    }
  }

  /** That is so for every history whose addresses all fit, and then nothing is cut off. */
  lemma FittingIsDefined(calls: seq<Call>)
    requires forall c <- calls :: Fits(c.seeder)
    ensures DefinedRun(calls) && KeptAll(calls) == calls
  {
    hide Run;
    assert KeptAll(calls) == calls;
    forall n | 0 <= n < |calls|
      ensures Defined(Run(calls[..n]), calls[n])
    {
      SeedersFit(calls[..n], calls[n].key);
    }
  }

  /** Two seeders of one file, the first with an address too long: the second call reads past the stored address. */
  lemma LongAddressUndefined(c: Call, d: Call)
    requires Acceptable(c) && d.key == c.key && !Fits(c.seeder)
    ensures !DefinedRun([c, d])
  {
    var kept := KeptAll([c, d]);
    assert kept[..1] == [Kept(c)] && kept[..1][..0] == [];
    assert Run(kept[..1]) == map[c.key := Entry(c.filename, c.size, [Stored(c.seeder)])];
    assert Stored(c.seeder) in Run(kept[..1])[c.key].seeders;
    assert !Defined(Run(kept[..1]), d);
  }

  /** The first call that created the entry. */
  ghost predicate Creates(calls: seq<Call>, key: string, i: int) {
    && 0 <= i < |calls| && calls[i].key == key && Acceptable(calls[i])
    && forall j :: 0 <= j < i && calls[j].key == key ==> !Acceptable(calls[j])
  }

  /** Position n is the first one, from the creation on, at which the seeder is announced for the key. */
  ghost predicate Announced(calls: seq<Call>, key: string, i: int, s: Seeder, n: int) {
    && 0 <= i <= n < |calls| && calls[n].key == key && calls[n].seeder == s
    && forall j :: i <= j < n && calls[j].key == key ==> calls[j].seeder != s
  }

  ghost predicate EverAnnounced(calls: seq<Call>, key: string, i: int, s: Seeder) {
    exists n :: Announced(calls, key, i, s, n)
  }

  ghost predicate EntryOf(calls: seq<Call>, key: string, i: int, e: Entry)
    requires 0 <= i < |calls|
  {
    && e.filename == calls[i].filename && e.size == calls[i].size
    && (forall a, b :: 0 <= a < b < |e.seeders| ==> e.seeders[a] != e.seeders[b])
    && (forall n :: i <= n < |calls| && calls[n].key == key ==> calls[n].seeder in e.seeders)
    && (forall a :: 0 <= a < |e.seeders| ==> EverAnnounced(calls, key, i, e.seeders[a]))
    && (forall a, b, m, n | 0 <= a < b < |e.seeders| ::
          Announced(calls, key, i, e.seeders[a], m) && Announced(calls, key, i, e.seeders[b], n) ==> n < m)
  }

  lemma AnnouncedBefore(calls: seq<Call>, key: string, i: int, s: Seeder, m: int)
    requires calls != []
    ensures m < |calls| - 1 ==> (Announced(calls, key, i, s, m) <==> Announced(calls[..|calls| - 1], key, i, s, m))
  {
  }

  /** The last call is for another key or a registered seeder. */
  lemma EntryStays(calls: seq<Call>, key: string, i: int, e: Entry)
    requires 0 <= i < |calls| - 1 && EntryOf(calls[..|calls| - 1], key, i, e)
    requires calls[|calls| - 1].key == key ==> calls[|calls| - 1].seeder in e.seeders
    ensures EntryOf(calls, key, i, e)
  {
    var n := |calls| - 1;
    var front := calls[..n];
    assert forall j :: 0 <= j < n ==> calls[j] == front[j];
    forall a | 0 <= a < |e.seeders|
      ensures EverAnnounced(calls, key, i, e.seeders[a])
      ensures forall m :: Announced(calls, key, i, e.seeders[a], m) ==> Announced(front, key, i, e.seeders[a], m)
    {
      var m :| Announced(front, key, i, e.seeders[a], m);
      assert Announced(calls, key, i, e.seeders[a], m);
      assert !Announced(calls, key, i, e.seeders[a], n);
      forall k ensures Announced(calls, key, i, e.seeders[a], k) ==> Announced(front, key, i, e.seeders[a], k) {
        AnnouncedBefore(calls, key, i, e.seeders[a], k);
      }
    }
  }

  /** The last call announces a new seeder. */
  lemma EntryGrows(calls: seq<Call>, key: string, i: int, e: Entry)
    requires 0 <= i < |calls| - 1 && EntryOf(calls[..|calls| - 1], key, i, e)
    requires calls[|calls| - 1].key == key && calls[|calls| - 1].seeder !in e.seeders
    ensures EntryOf(calls, key, i, e.(seeders := [calls[|calls| - 1].seeder] + e.seeders))
  {
    var n := |calls| - 1;
    var front, s := calls[..n], calls[n].seeder;
    var seeders := [s] + e.seeders;
    assert forall j :: 0 <= j < n ==> calls[j] == front[j];
    assert Announced(calls, key, i, s, n);
    forall m | Announced(calls, key, i, s, m) ensures m == n {}
    forall a | 1 <= a < |seeders|
      ensures EverAnnounced(calls, key, i, seeders[a])
      ensures forall m :: Announced(calls, key, i, seeders[a], m) ==> m < n && Announced(front, key, i, seeders[a], m)
    {
      assert seeders[a] == e.seeders[a - 1];
      var m :| Announced(front, key, i, e.seeders[a - 1], m);
      assert Announced(calls, key, i, seeders[a], m);
      forall k ensures Announced(calls, key, i, seeders[a], k) ==> k < n && Announced(front, key, i, seeders[a], k) {
        AnnouncedBefore(calls, key, i, seeders[a], k);
      }
    }
    forall a, b, m, m'
        | 0 <= a < b < |seeders| && Announced(calls, key, i, seeders[a], m) && Announced(calls, key, i, seeders[b], m')
      ensures m' < m
    {
      if a > 0 { assert seeders[a] == e.seeders[a - 1] && seeders[b] == e.seeders[b - 1]; }
    }
  }

  lemma EntryStarts(calls: seq<Call>, key: string, e: Entry)
    requires calls != [] && calls[|calls| - 1].key == key
    requires e == Entry(calls[|calls| - 1].filename, calls[|calls| - 1].size, [calls[|calls| - 1].seeder])
    ensures EntryOf(calls, key, |calls| - 1, e)
  {
    assert Announced(calls, key, |calls| - 1, e.seeders[0], |calls| - 1);
  }

  lemma CreatesBefore(calls: seq<Call>, key: string, i: int)
    requires 0 <= i < |calls| - 1
    ensures Creates(calls, key, i) <==> Creates(calls[..|calls| - 1], key, i)
  {
  }

  lemma OneCreation(calls: seq<Call>, key: string, i: int, j: int)
    requires Creates(calls, key, i) && Creates(calls, key, j)
    ensures i == j
  {
  }

  /** A key is present exactly when an acceptable call was made for it; name and size come from the first such call;
      the seeders are the distinct ones announced from then on, latest first. */
  lemma {:induction false} RunMeaning(calls: seq<Call>, key: string)
    ensures key in Run(calls) <==> exists i :: Creates(calls, key, i)
    ensures forall i :: Creates(calls, key, i) ==> EntryOf(calls, key, i, Run(calls)[key])
  {
    hide EntryOf;
    if calls == [] {
    } else {
      var n := |calls| - 1;
      var front, c := calls[..n], calls[n];
      RunMeaning(front, key);
      if i :| Creates(front, key, i) {
        var e := Run(front)[key];
        assert EntryOf(front, key, i, e);
        CreatesBefore(calls, key, i);
        forall j | Creates(calls, key, j) ensures j == i { OneCreation(calls, key, i, j); }
        if c.key == key && c.seeder !in e.seeders {
          EntryGrows(calls, key, i, e);
        } else {
          EntryStays(calls, key, i, e);
        }
      } else {
        forall j | Creates(calls, key, j) ensures j == n { if j < n { CreatesBefore(calls, key, j); } }
        if c.key == key && Acceptable(c) {
          NoEarlier(front, key);
          assert Creates(calls, key, n);
          EntryStarts(calls, key, Run(calls)[key]);
        }
      }
    }
  }

  lemma {:induction false} NoEarlier(calls: seq<Call>, key: string)
    requires forall i :: !Creates(calls, key, i)
    ensures forall j :: 0 <= j < |calls| && calls[j].key == key ==> !Acceptable(calls[j])
  {
    if calls != [] {
      var n := |calls| - 1;
      forall i ensures !Creates(calls[..n], key, i) {
        if 0 <= i < n {
          CreatesBefore(calls, key, i);
          assert !Creates(calls, key, i);
        }
      }
      NoEarlier(calls[..n], key);
      assert !Creates(calls, key, n);
      assert forall j :: 0 <= j < n ==> calls[j] == calls[..n][j];
    }
  }
}
