/**
 * The project-tree printer (src/rproj/utils/tree.py): a depth-bounded walk
 * of a directory that prints one line per entry, siblings in sorted order,
 * with box-drawing connectors, an indentation prefix that grows by one
 * guide per level, and a colour picked from the entry's name. The
 * directory is given as a value; the printed lines are returned.
 */
module Tree {
  import opened Text

  /** A directory entry: a plain file, or a folder with what listing it gives. */
  datatype Node = File(name: string) | Folder(name: string, listing: Listing)

  /** What `os.listdir` gives for a directory: its entries, or a PermissionError. */
  datatype Listing = Denied | Listed(children: seq<Node>)

  /** One printed line, before rich markup is applied. */
  datatype Line =
    | Item(prefix: string, connector: string, color: string, name: string)
    | Refused(prefix: string, path: string)

  const Elbow := "└── "
  const Tee := "├── "
  const Blank := "    "
  const Pipe := "│   "

  /** The defaults of `print_project_structure`. */
  const DefaultMaxDepth := 4

  /** The text `print` is given for a line. */
  function Markup(l: Line): (s: string)
    ensures l.Item? ==> EndsWith(s, l.name + "[/]")
    ensures |l.prefix| <= |s| && s[..|l.prefix|] == l.prefix
  {
    match l
    case Item(prefix, connector, color, name) =>
      var s := prefix + connector + "[" + color + "]" + name + "[/]";
      assert s[|s| - |name + "[/]"|..] == name + "[/]";
      s
    case Refused(prefix, path) => prefix + "Permission denied: " + path
  }

  /** `os.path.join(root_dir, item)`, for a root that does not end in a separator. */
  function ItemPath(dir: string, name: string): string {
    dir + "/" + name
  }

  // ---------------------------------------------------------------------
  // Colour selection

  /** The name has one of the suffixes the colour chain tests before the directory test. */
  predicate Suffixed(name: string) {
    EndsWith(name, ".py") || EndsWith(name, ".txt") || EndsWith(name, ".md") ||
    EndsWith(name, ".json") || EndsWith(name, ".csv") ||
    EndsWith(name, ".yaml") || EndsWith(name, ".yml")
  }

  /** Each tested suffix ends in its own letter, so a name carries at most one of them (".yaml" and ".yml" aside). */
  lemma SuffixLast(name: string)
    ensures EndsWith(name, ".py") ==> name[|name| - 1] == 'y'
    ensures EndsWith(name, ".txt") ==> name[|name| - 1] == 't'
    ensures EndsWith(name, ".md") ==> name[|name| - 1] == 'd'
    ensures EndsWith(name, ".json") ==> name[|name| - 1] == 'n'
    ensures EndsWith(name, ".csv") ==> name[|name| - 1] == 'v'
    ensures EndsWith(name, ".yaml") || EndsWith(name, ".yml") ==> name[|name| - 1] == 'l'
  {
    if EndsWith(name, ".py") { assert name[|name| - 3..][2] == 'y'; }
    if EndsWith(name, ".txt") { assert name[|name| - 4..][3] == 't'; }
    if EndsWith(name, ".md") { assert name[|name| - 3..][2] == 'd'; }
    if EndsWith(name, ".json") { assert name[|name| - 5..][4] == 'n'; }
    if EndsWith(name, ".csv") { assert name[|name| - 4..][3] == 'v'; }
    if EndsWith(name, ".yaml") { assert name[|name| - 5..][4] == 'l'; }
    if EndsWith(name, ".yml") { assert name[|name| - 4..][3] == 'l'; }
  }

  /** The colour chain of the loop body: the first matching suffix, then the directory test, then white. */
  function Color(name: string, isDir: bool): (c: string)
    ensures EndsWith(name, ".py") <==> c == "green"
    ensures EndsWith(name, ".txt") <==> c == "blue"
    ensures EndsWith(name, ".md") <==> c == "yellow"
    ensures EndsWith(name, ".json") <==> c == "cyan"
    ensures EndsWith(name, ".csv") <==> c == "magenta"
    ensures EndsWith(name, ".yaml") || EndsWith(name, ".yml") <==> c == "red"
    ensures !Suffixed(name) && isDir <==> c == "bright_black"
    ensures !Suffixed(name) && !isDir <==> c == "white"
  {
    SuffixLast(name);
    if EndsWith(name, ".py") then "green"
    else if EndsWith(name, ".txt") then "blue"
    else if EndsWith(name, ".md") then "yellow"
    else if EndsWith(name, ".json") then "cyan"
    else if EndsWith(name, ".csv") then "magenta"
    else if EndsWith(name, ".yaml") || EndsWith(name, ".yml") then "red"
    else if isDir then "bright_black"
    else "white"
  }

  /** A suffix decides before the directory test: a folder named like a file gets the file's colour. */
  lemma SuffixBeforeDirectory(name: string)
    requires Suffixed(name)
    ensures Color(name, true) == Color(name, false)
    ensures Color(name, true) != "bright_black" && Color(name, true) != "white"
  {
  }

  function ColorOf(n: Node): string {
    Color(n.name, n.Folder?)
  }

  // ---------------------------------------------------------------------
  // Building the sorted entry list

  /** `item in ignore`, under the `if ignore:` guard of the exact-match mode. */
  predicate Ignored(name: string, ignore: seq<string>) {
    ignore != [] && name in ignore
  }

  /** The entries the listing loop appends, in listing order. */
  function Kept(children: seq<Node>, ignore: seq<string>): (r: seq<Node>)
    ensures forall n :: n in r <==> n in children && !Ignored(n.name, ignore)
    ensures |r| <= |children|
  {
    if children == [] then []
    else
      var rest := Kept(children[..|children| - 1], ignore);
      var last := children[|children| - 1];
      assert children == children[..|children| - 1] + [last];
      if Ignored(last.name, ignore) then rest else rest + [last]
  }

  lemma {:induction false} KeptAppend(a: seq<Node>, b: seq<Node>, ignore: seq<string>)
    ensures Kept(a + b, ignore) == Kept(a, ignore) + Kept(b, ignore)
  {
    if b == [] {
      assert a + b == a;
    } else {
      var last := b[|b| - 1];
      assert (a + b)[..|a + b| - 1] == a + b[..|b| - 1];
      assert (a + b)[|a + b| - 1] == last;
      KeptAppend(a, b[..|b| - 1], ignore);
    }
  }

  predicate SortedByName(s: seq<Node>) {
    forall i, j :: 0 <= i < j < |s| ==> Le(s[i].name, s[j].name)
  }

  /** Insert into a list sorted by name, before the first entry not below it. */
  function Insert(x: Node, s: seq<Node>): (r: seq<Node>)
    ensures multiset(r) == multiset(s) + multiset{x}
  {
    if s == [] then [x]
    else if Le(x.name, s[0].name) then [x] + s
    else
      assert s == [s[0]] + s[1..];
      [s[0]] + Insert(x, s[1..])
  }

  lemma {:induction false} InsertSorted(x: Node, s: seq<Node>)
    requires SortedByName(s)
    ensures SortedByName(Insert(x, s))
  {
    if s != [] && Le(x.name, s[0].name) {
      var r := [x] + s;
      forall j | 1 < j < |r| ensures Le(x.name, r[j].name) {
        LeTransitive(x.name, s[0].name, s[j - 1].name);
      }
    } else if s != [] {
      InsertSorted(x, s[1..]);
      var tail := Insert(x, s[1..]);
      LeTotal(x.name, s[0].name);
      assert s == [s[0]] + s[1..];
      forall j | 0 <= j < |tail| ensures Le(s[0].name, tail[j].name) {
        assert tail[j] in multiset(tail);
        if tail[j] != x {
          assert tail[j] in multiset(s[1..]);
          var k :| 0 <= k < |s[1..]| && s[1..][k] == tail[j];
          assert s[k + 1] == tail[j];
        }
      }
    }
  }

  /** `items.sort()`: ascending by name, the same entries. */
  function Sort(s: seq<Node>): (r: seq<Node>)
    ensures SortedByName(r)
    ensures multiset(r) == multiset(s)
  {
    if s == [] then []
    else
      assert s == [s[0]] + s[1..];
      InsertSorted(s[0], Sort(s[1..]));
      Insert(s[0], Sort(s[1..]))
  }

  /**
   * The `try` block of `print_project_structure`: the entries not ignored,
   * appended one by one and then sorted.
   */
  method CollectItems(children: seq<Node>, ignore: seq<string>) returns (items: seq<Node>)
    ensures items == Sort(Kept(children, ignore))
  {
    items := [];
    var i := 0;
    while i < |children|
      invariant 0 <= i <= |children|
      invariant items == Kept(children[..i], ignore)
    {
      var item := children[i];
      assert children[..i + 1] == children[..i] + [item];
      if !Ignored(item.name, ignore) {
        items := items + [item];
      }
      i := i + 1;
    }
    assert children[..i] == children;
    items := Sort(items);
  }

  // ---------------------------------------------------------------------
  // Rendering

  function Connector(isLast: bool): string {
    if isLast then Elbow else Tee
  }

  function Indent(isLast: bool): string {
    if isLast then Blank else Pipe
  }

  /**
   * `print_project_structure(root_dir, prefix, max_depth, current_depth,
   * ignore)` in the exact-match mode: the lines it prints.
   */
  function Render(path: string, listing: Listing, prefix: string, maxDepth: int, depth: int, ignore: seq<string>): (lines: seq<Line>)
    decreases maxDepth - depth, 1, 0
    ensures depth > maxDepth ==> lines == []
    ensures depth <= maxDepth && listing.Denied? ==> lines == [Refused(prefix, path)]
  {
    if depth > maxDepth then []
    else
      match listing
      case Denied => [Refused(prefix, path)]
      case Listed(children) => Entries(path, Sort(Kept(children, ignore)), 0, prefix, maxDepth, depth, ignore)
  }

  /** The `for index, item in enumerate(items)` loop, from position `i` on. */
  function Entries(path: string, items: seq<Node>, i: nat, prefix: string, maxDepth: int, depth: int, ignore: seq<string>): seq<Line>
    requires i <= |items| && depth <= maxDepth
    decreases maxDepth - depth, 0, |items| - i
  {
    if i == |items| then []
    else
      var item := items[i];
      var isLast := i == |items| - 1;
      var line := Item(prefix, Connector(isLast), ColorOf(item), item.name);
      var below :=
        if item.Folder? then
          Render(ItemPath(path, item.name), item.listing, prefix + Indent(isLast), maxDepth, depth + 1, ignore)
        else [];
      [line] + below + Entries(path, items, i + 1, prefix, maxDepth, depth, ignore)
  }

  /** `print_project_structure(root_dir)`: the defaults of every optional parameter. */
  function RenderRoot(path: string, listing: Listing): seq<Line> {
    Render(path, listing, "", DefaultMaxDepth, 0, [])
  }

  // ---------------------------------------------------------------------
  // Shape of the output

  /** A run of indentation guides, one per level: four spaces or a bar and three spaces. */
  predicate Guides(g: string)
    decreases |g|
  {
    g == [] || (|g| >= 4 && (g[..4] == Blank || g[..4] == Pipe) && Guides(g[4..]))
  }

  /**
   * A line printed by a call with prefix `p` and `levels` levels left to
   * descend: it carries `p` followed by at most `levels` guides.
   */
  predicate Within(l: Line, p: string, levels: int) {
    && |p| <= |l.prefix| && l.prefix[..|p|] == p
    && Guides(l.prefix[|p|..])
    && |l.prefix| <= |p| + 4 * levels
  }

  /** A line one level down keeps the parent's prefix and adds one guide. */
  lemma WithinChild(l: Line, p: string, isLast: bool, levels: int)
    requires Within(l, p + Indent(isLast), levels - 1)
    ensures Within(l, p, levels)
  {
    var q := p + Indent(isLast);
    var g := l.prefix[|p|..];
    assert l.prefix[..|p|] == q[..|p|] == p;
    assert g[..4] == Indent(isLast);
    assert g[4..] == l.prefix[|q|..];
  }

  /**
   * Every line lies within the depth bound and grows the prefix by whole
   * guides, and no printed entry has an ignored name.
   */
  lemma {:induction false} RenderShape(path: string, listing: Listing, prefix: string, maxDepth: int, depth: int, ignore: seq<string>)
    decreases maxDepth - depth, 1, 0
    ensures forall l | l in Render(path, listing, prefix, maxDepth, depth, ignore) ::
              Within(l, prefix, maxDepth - depth) && (l.Item? ==> !Ignored(l.name, ignore))
  {
    if depth <= maxDepth && listing.Listed? {
      var items := Sort(Kept(listing.children, ignore));
      forall n | n in items ensures !Ignored(n.name, ignore) {
        assert n in multiset(items);
      }
      EntriesShape(path, items, 0, prefix, maxDepth, depth, ignore);
    } else if depth <= maxDepth {
      assert Within(Refused(prefix, path), prefix, maxDepth - depth) by {
        assert prefix[|prefix|..] == [];
      }
    }
  }

  lemma {:induction false} EntriesShape(path: string, items: seq<Node>, i: nat, prefix: string, maxDepth: int, depth: int, ignore: seq<string>)
    requires i <= |items| && depth <= maxDepth
    requires forall n | n in items :: !Ignored(n.name, ignore)
    decreases maxDepth - depth, 0, |items| - i
    ensures forall l | l in Entries(path, items, i, prefix, maxDepth, depth, ignore) ::
              Within(l, prefix, maxDepth - depth) && (l.Item? ==> !Ignored(l.name, ignore))
  {
    if i < |items| {
      var item := items[i];
      var isLast := i == |items| - 1;
      var line := Item(prefix, Connector(isLast), ColorOf(item), item.name);
      assert prefix[|prefix|..] == [];
      assert Within(line, prefix, maxDepth - depth);
      if item.Folder? {
        var q := prefix + Indent(isLast);
        RenderShape(ItemPath(path, item.name), item.listing, q, maxDepth, depth + 1, ignore);
        var sub := Render(ItemPath(path, item.name), item.listing, q, maxDepth, depth + 1, ignore);
        forall l | l in sub
          ensures Within(l, prefix, maxDepth - depth)
        {
          WithinChild(l, prefix, isLast, maxDepth - depth);
        }
      }
      EntriesShape(path, items, i + 1, prefix, maxDepth, depth, ignore);
    }
  }

  /** Only the lines printed at one level: those whose prefix is exactly `p`. */
  function Level(lines: seq<Line>, p: string): (r: seq<Line>)
    ensures forall l | l in r :: l in lines && l.prefix == p
  {
    if lines == [] then []
    else if lines[0].prefix == p then [lines[0]] + Level(lines[1..], p)
    else Level(lines[1..], p)
  }

  lemma {:induction false} LevelAppend(a: seq<Line>, b: seq<Line>, p: string)
    ensures Level(a + b, p) == Level(a, p) + Level(b, p)
  {
    if a == [] {
      assert a + b == b;
    } else {
      assert (a + b)[0] == a[0];
      assert (a + b)[1..] == a[1..] + b;
      LevelAppend(a[1..], b, p);
    }
  }

  lemma {:induction false} LevelNone(lines: seq<Line>, p: string)
    requires forall l | l in lines :: |l.prefix| > |p|
    ensures Level(lines, p) == []
  {
    if lines != [] {
      assert lines[0] in lines;
      LevelNone(lines[1..], p);
    }
  }

  /** The sibling lines of a directory printed with prefix `p`, as the loop emits them. */
  function Siblings(p: string, items: seq<Node>): (r: seq<Line>)
    ensures |r| == |items|
  {
    seq(|items|, k requires 0 <= k < |items| => Item(p, Connector(k == |items| - 1), ColorOf(items[k]), items[k].name))
  }

  /** What a folder entry prints below its own line belongs to a deeper level. */
  lemma BelowLevel(path: string, item: Node, isLast: bool, prefix: string, maxDepth: int, depth: int, ignore: seq<string>)
    requires item.Folder?
    ensures Level(Render(ItemPath(path, item.name), item.listing, prefix + Indent(isLast), maxDepth, depth + 1, ignore), prefix) == []
  {
    var sub := Render(ItemPath(path, item.name), item.listing, prefix + Indent(isLast), maxDepth, depth + 1, ignore);
    RenderShape(ItemPath(path, item.name), item.listing, prefix + Indent(isLast), maxDepth, depth + 1, ignore);
    LevelNone(sub, prefix);
  }

  lemma SiblingsStep(p: string, items: seq<Node>, i: nat)
    requires i < |items|
    ensures Siblings(p, items)[i..]
            == [Item(p, Connector(i == |items| - 1), ColorOf(items[i]), items[i].name)] + Siblings(p, items)[i + 1..]
  {
  }

  lemma {:induction false} EntriesLevel(path: string, items: seq<Node>, i: nat, prefix: string, maxDepth: int, depth: int, ignore: seq<string>)
    requires i <= |items| && depth <= maxDepth
    decreases |items| - i
    ensures Level(Entries(path, items, i, prefix, maxDepth, depth, ignore), prefix) == Siblings(prefix, items)[i..]
  {
    if i < |items| {
      var item := items[i];
      var isLast := i == |items| - 1;
      var below :=
        if item.Folder? then
          Render(ItemPath(path, item.name), item.listing, prefix + Indent(isLast), maxDepth, depth + 1, ignore)
        else [];
      var rest := Entries(path, items, i + 1, prefix, maxDepth, depth, ignore);
      var line := Item(prefix, Connector(isLast), ColorOf(item), item.name);
      assert Entries(path, items, i, prefix, maxDepth, depth, ignore) == [line] + below + rest;
      if item.Folder? {
        BelowLevel(path, item, isLast, prefix, maxDepth, depth, ignore);
      }
      assert Level(below, prefix) == [];
      LevelAppend([line] + below, rest, prefix);
      LevelAppend([line], below, prefix);
      assert Level([line], prefix) == [line];
      EntriesLevel(path, items, i + 1, prefix, maxDepth, depth, ignore);
      SiblingsStep(prefix, items, i);
    }
  }

  /**
   * The lines at the top level of a listed directory are exactly one per
   * entry that is not ignored, in sorted order, each with the connector of
   * its position; everything else printed belongs to a deeper level.
   */
  lemma SiblingLines(path: string, children: seq<Node>, prefix: string, maxDepth: int, depth: int, ignore: seq<string>)
    requires depth <= maxDepth
    ensures Level(Render(path, Listed(children), prefix, maxDepth, depth, ignore), prefix)
            == Siblings(prefix, Sort(Kept(children, ignore)))
  {
    EntriesLevel(path, Sort(Kept(children, ignore)), 0, prefix, maxDepth, depth, ignore);
  }

  /**
   * What a reader sees among siblings: the entries that are not ignored,
   * each once, in ascending order of name, with "└── " on the last alone.
   */
  lemma SiblingOrder(path: string, children: seq<Node>, prefix: string, maxDepth: int, depth: int, ignore: seq<string>)
    requires depth <= maxDepth
    ensures var t := Level(Render(path, Listed(children), prefix, maxDepth, depth, ignore), prefix);
            && |t| == |Kept(children, ignore)|
            && (forall i, j :: 0 <= i < j < |t| ==> t[i].Item? && t[j].Item? && Le(t[i].name, t[j].name))
            && (forall k :: 0 <= k < |t| ==> t[k].Item? && !Ignored(t[k].name, ignore))
            && (forall k :: 0 <= k < |t| ==> (t[k].connector == Elbow <==> k == |t| - 1))
  {
    SiblingLines(path, children, prefix, maxDepth, depth, ignore);
    var items := Sort(Kept(children, ignore));
    assert |items| == |Kept(children, ignore)| by {
      assert |multiset(items)| == |multiset(Kept(children, ignore))|;
    }
    forall k | 0 <= k < |items| ensures !Ignored(items[k].name, ignore) {
      assert items[k] in multiset(items);
    }
  }

  /** Ignored entries are neither printed nor descended into: dropping one changes nothing. */
  lemma IgnoredInvisible(path: string, a: seq<Node>, x: Node, b: seq<Node>, prefix: string, maxDepth: int, depth: int, ignore: seq<string>)
    requires Ignored(x.name, ignore)
    ensures Render(path, Listed(a + [x] + b), prefix, maxDepth, depth, ignore)
            == Render(path, Listed(a + b), prefix, maxDepth, depth, ignore)
  {
    KeptAppend(a + [x], b, ignore);
    KeptAppend(a, [x], ignore);
    KeptAppend(a, b, ignore);
    assert Kept([x], ignore) == [] by {
      assert [x][..0] == [];
    }
  }

  /** With the defaults, at most five levels show: the prefix never exceeds four guides. */
  lemma RootDepth(path: string, listing: Listing)
    ensures forall l | l in RenderRoot(path, listing) :: |l.prefix| <= 4 * DefaultMaxDepth && Guides(l.prefix)
  {
    RenderShape(path, listing, "", DefaultMaxDepth, 0, []);
    forall l | l in RenderRoot(path, listing) ensures Guides(l.prefix) {
      assert l.prefix[|""|..] == l.prefix;
    }
  }
}
