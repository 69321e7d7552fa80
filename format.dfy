/**
 * The text views of a project that every version of `RProjFile` shares:
 * `__str__`, `list_view` and the line list of `print_details`. Rich markup
 * tags are kept as literal text; nothing is rendered or printed.
 */
module Format {
  import opened Wrappers
  import opened Text

  /** " | `s`" when `s` is non-empty, else nothing. */
  function Tagged(s: string): string {
    if s == "" then "" else " | `" + s + "`"
  }

  /** `__str__`: "name @ dir", then " | `description`" and " | `github`", each only when non-empty. */
  function Summary(name: string, directory: string, description: string, github: string): (r: string)
    ensures description == "" && github == "" ==> r == name + " @ " + directory
    ensures description != "" && github == "" ==> r == name + " @ " + directory + " | `" + description + "`"
    ensures description == "" && github != "" ==> r == name + " @ " + directory + " | `" + github + "`"
    ensures description != "" && github != "" ==>
              r == name + " @ " + directory + " | `" + description + "`" + " | `" + github + "`"
  {
    name + " @ " + directory + Tagged(description) + Tagged(github)
  }

  /** The numbering of `list_view`: "i. " given an index, "- " otherwise. */
  function ListPrefix(index: Option<int>): (p: string)
    ensures index.Some? ==> p == IntToString(index.value) + ". "
    ensures index.None? ==> p == "- "
    ensures p != [] && !IsSpace(p[0])
  {
    if index.Some? then IntToString(index.value) + ". " else "- "
  }

  /** The part of a `list_view` line before the details. */
  function ListHead(prefix: string, name: string, directory: string): (r: string)
    requires prefix != []
    ensures r != [] && r[0] == prefix[0] && r[|r| - 1] == ']'
  {
    prefix + "[bright_blue]" + name + "[/] @ [yellow]" + directory + "[/]"
  }

  /** What precedes the URL in the github part of `details_str`: a new line indented by the width of the prefix. */
  function GithubLead(prefix: string): string {
    "\n" + Spaces(|prefix|) + "[dim]github:[/] "
  }

  /** The github part of `details_str`. */
  function GithubDetail(prefix: string, github: string): string {
    GithubLead(prefix) + github
  }

  /** `details_str`: the description, then the github line indented under the prefix. */
  function ListDetails(prefix: string, description: string, github: string): (r: string)
    ensures description != "" && github == "" ==> r == "- [dim]" + description + "[/]"
    ensures description == "" && github == "" ==> r == ""
    ensures description != "" && github != "" ==>
              r == ("- [dim]" + description + "[/]") + (("\n" + Spaces(|prefix|) + "[dim]github:[/] ") + github)
    ensures description == "" && github != "" ==> r == ("\n" + Spaces(|prefix|) + "[dim]github:[/] ") + github
  {
    DescriptionDetail(description) + (if github != "" then GithubDetail(prefix, github) else "")
  }

  lemma {:induction false} TrimRightKeeps(a: string, b: string)
    requires a != [] && !IsSpace(a[|a| - 1])
    ensures |a| <= |TrimRight(a + b)| && TrimRight(a + b)[..|a|] == a
  {
    if b != [] && IsSpace(b[|b| - 1]) {
      assert (a + b)[..|a + b| - 1] == a + b[..|b| - 1];
      TrimRightKeeps(a, b[..|b| - 1]);
    }
  }

  /** Stripping a line that starts and ends its head with non-space characters. */
  lemma StripLine(head: string, tail: string)
    requires head != [] && !IsSpace(head[0]) && !IsSpace(head[|head| - 1])
    ensures Strip(head + tail) == TrimRight(head + tail)
    ensures |head| <= |Strip(head + tail)| && Strip(head + tail)[..|head|] == head
  {
    assert (head + tail)[0] == head[0];
    TrimRightKeeps(head, tail);
  }

  /** With no details, `strip` removes just the separating space. */
  lemma StripBare(head: string)
    requires head != [] && !IsSpace(head[0]) && head[|head| - 1] == ']'
    ensures Strip(head + " ") == head
  {
    StripAfterSolid(head, " ");
  }

  /** With only a description, nothing is stripped: the line ends in "[/]". */
  lemma StripDescribed(head: string, description: string)
    requires head != [] && !IsSpace(head[0]) && head[|head| - 1] == ']'
    ensures Strip(head + " " + ("- [dim]" + description + "[/]")) == head + " - [dim]" + description + "[/]"
  {
    var solid := head + " - [dim]" + description + "[/]";
    assert head + " " + ("- [dim]" + description + "[/]") == solid + "";
    assert solid[0] == head[0];
    StripAfterSolid(solid, "");
  }

  /** The description part of `details_str`. */
  function DescriptionDetail(description: string): string {
    if description != "" then "- [dim]" + description + "[/]" else ""
  }

  /** What stripping the joined `list_view` line leaves, case by case. */
  lemma ListViewLine(prefix: string, name: string, directory: string, description: string, github: string)
    requires prefix != [] && !IsSpace(prefix[0])
    ensures var head := ListHead(prefix, name, directory);
            var r := Strip(head + " " + ListDetails(prefix, description, github));
            && |head| <= |r| && r[..|head|] == head
            && r != [] && !IsSpace(r[|r| - 1])
            && (description == "" && github == "" ==> r == head)
            && (description != "" && github == "" ==> r == head + " - [dim]" + description + "[/]")
            && (github != "" ==> r == TrimRight(head + " " + ListDetails(prefix, description, github)))
  {
    var head := ListHead(prefix, name, directory);
    var tail := " " + ListDetails(prefix, description, github);
    assert head + " " + ListDetails(prefix, description, github) == head + tail;
    StripLine(head, tail);
    if description == "" && github == "" {
      StripBare(head);
    } else if github == "" {
      StripDescribed(head, description);
    }
  }

  /** Stripping a line whose head is solid and whose last part is not all whitespace. */
  lemma {:induction false} StripEndingIn(head: string, mid: string, last: string)
    requires head != [] && !IsSpace(head[0]) && TrimRight(last) != []
    ensures Strip(head + mid + last) == head + mid + TrimRight(last)
  {
    assert (head + mid + last)[0] == head[0];
    TrimRightConcat(head + mid, last);
  }

  /** With a github URL that is not all whitespace, the line ends in that URL, right-stripped. */
  lemma ListViewGithub(prefix: string, name: string, directory: string, description: string, github: string)
    requires prefix != [] && !IsSpace(prefix[0])
    ensures var head := ListHead(prefix, name, directory);
            TrimRight(github) != "" ==>
              Strip(head + " " + ListDetails(prefix, description, github))
              == head + " " + DescriptionDetail(description) + ("\n" + Spaces(|prefix|) + "[dim]github:[/] ")
                 + TrimRight(github)
  {
    if TrimRight(github) == "" {
      return;
    }
    var head := ListHead(prefix, name, directory);
    var dd := DescriptionDetail(description);
    var lead := GithubLead(prefix);
    assert ListDetails(prefix, description, github) == dd + (lead + github);
    Regroup(head, " ", dd, lead, github);
    StripEndingIn(head, " " + dd + lead, github);
    Regroup(head, " ", dd, lead, TrimRight(github));
  }

  /** With a github URL made only of whitespace, the line ends in the "[dim]github:[/]" label. */
  lemma ListViewBlankGithub(prefix: string, name: string, directory: string, description: string, github: string)
    requires prefix != [] && !IsSpace(prefix[0])
    ensures var head := ListHead(prefix, name, directory);
            github != "" && TrimRight(github) == "" ==>
              Strip(head + " " + ListDetails(prefix, description, github))
              == head + " " + DescriptionDetail(description) + ("\n" + Spaces(|prefix|) + "[dim]github:[/]")
  {
    if github == "" || TrimRight(github) != "" {
      return;
    }
    var head := ListHead(prefix, name, directory);
    var dd := DescriptionDetail(description);
    var tag := "\n" + Spaces(|prefix|) + "[dim]github:[/]";
    var blank := " " + github;
    assert GithubLead(prefix) == tag + " ";
    assert ListDetails(prefix, description, github) == dd + ((tag + " ") + github);
    Spread(head, dd, tag, github);
    var solid := head + " " + dd + tag;
    assert solid[0] == head[0];
    assert solid[|solid| - 1] == ']';
    assert forall k :: 0 <= k < |blank| ==> IsSpace(blank[k]) by {
      forall k | 0 <= k < |blank|
        ensures IsSpace(blank[k])
      {
        if k > 0 {
          assert blank[k] == github[k - 1];
        }
      }
    }
    StripAfterSolid(solid, blank);
  }

  lemma Spread(head: string, dd: string, tag: string, github: string)
    ensures head + " " + (dd + ((tag + " ") + github)) == head + " " + dd + tag + (" " + github)
  {
  }

  lemma Regroup(a: string, b: string, c: string, d: string, e: string)
    ensures a + b + (c + (d + e)) == a + (b + c + d) + e
    ensures a + (b + c + d) + e == a + b + c + d + e
  {
  }

  /**
   * The stripped line "prefix name @ dir details" of `list_view`, for any
   * prefix that starts with a non-space character. It always begins with
   * the head and never ends in whitespace; it carries the description and
   * the github URL only when they are non-empty, the URL on a new line
   * indented by the width of the prefix.
   */
  function ListLine(prefix: string, name: string, directory: string, description: string, github: string): (r: string)
    requires prefix != [] && !IsSpace(prefix[0])
    ensures var head := ListHead(prefix, name, directory);
            |head| <= |r| && r[..|head|] == head
    ensures r != [] && !IsSpace(r[|r| - 1])
    ensures description == "" && github == "" ==> r == ListHead(prefix, name, directory)
    ensures description != "" && github == "" ==>
              r == ListHead(prefix, name, directory) + " - [dim]" + description + "[/]"
    ensures TrimRight(github) != "" ==>
              r == ListHead(prefix, name, directory) + " " + DescriptionDetail(description)
                   + ("\n" + Spaces(|prefix|) + "[dim]github:[/] ") + TrimRight(github)
    ensures github != "" && TrimRight(github) == "" ==>
              r == ListHead(prefix, name, directory) + " " + DescriptionDetail(description)
                   + ("\n" + Spaces(|prefix|) + "[dim]github:[/]")
  {
    ListViewLine(prefix, name, directory, description, github);
    ListViewGithub(prefix, name, directory, description, github);
    ListViewBlankGithub(prefix, name, directory, description, github);
    Strip(ListHead(prefix, name, directory) + " " + ListDetails(prefix, description, github))
  }

  /** `list_view(i)`: the line under the numbering "i. ", or "- " without a number. */
  function ListView(index: Option<int>, name: string, directory: string, description: string, github: string): string {
    ListLine(ListPrefix(index), name, directory, description, github)
  }

  /** `line for line in lines if line`. */
  function NonEmpty(lines: seq<string>): seq<string> {
    if lines == [] then []
    else (if lines[0] == "" then [] else [lines[0]]) + NonEmpty(lines[1..])
  }

  lemma NonEmptyCons(x: string, rest: seq<string>)
    ensures NonEmpty([x] + rest) == (if x == "" then [] else [x]) + NonEmpty(rest)
  {
    assert ([x] + rest)[1..] == rest;
  }

  /** Filtering distributes over concatenation. */
  lemma {:induction false} NonEmptyAppend(a: seq<string>, b: seq<string>)
    ensures NonEmpty(a + b) == NonEmpty(a) + NonEmpty(b)
  {
    if a == [] {
      assert a + b == b;
    } else {
      assert (a + b)[0] == a[0];
      assert (a + b)[1..] == a[1..] + b;
      NonEmptyAppend(a[1..], b);
    }
  }

  lemma NonEmptyPair(x: string, y: string)
    ensures NonEmpty([x, y]) == (if x == "" then [] else [x]) + (if y == "" then [] else [y])
  {
    NonEmptyCons(x, [y]);
    NonEmptyCons(y, []);
    assert [x] + [y] == [x, y];
    assert [y] + [] == [y];
  }

  /** Filtering six candidate lines of which the first, third and fourth are never empty. */
  lemma NonEmptySix(l0: string, l1: string, l2: string, l3: string, l4: string, l5: string)
    requires l0 != "" && l2 != "" && l3 != ""
    ensures NonEmpty([l0, l1, l2, l3, l4, l5])
            == [l0] + (if l1 != "" then [l1] else []) + [l2, l3]
               + (if l4 != "" then [l4] else []) + (if l5 != "" then [l5] else [])
  {
    assert [l0, l1, l2, l3, l4, l5] == [l0, l1] + ([l2, l3] + [l4, l5]);
    NonEmptyAppend([l0, l1], [l2, l3] + [l4, l5]);
    NonEmptyAppend([l2, l3], [l4, l5]);
    NonEmptyPair(l0, l1);
    NonEmptyPair(l2, l3);
    NonEmptyPair(l4, l5);
    assert [l2] + [l3] == [l2, l3];
  }

  function NameLine(name: string): (l: string) ensures l != "" {
    "[bright_blue]Project Name:[/] " + name
  }

  function DescriptionLine(description: string): (l: string) ensures l != "" {
    "[bright_blue]Description:[/] [bright_black]" + description + "[/]"
  }

  function DirectoryLine(directory: string): (l: string) ensures l != "" {
    "[bright_blue]Directory:[/] [yellow]" + directory + "[/]"
  }

  function PathLine(path: string): (l: string) ensures l != "" {
    "[bright_blue]Path:[/] [yellow]" + path + "[/]"
  }

  function GithubLine(github: string): (l: string) ensures l != "" {
    "[bright_blue]GitHub:[/] " + github
  }

  function RunLine(runCmd: string): (l: string) ensures l != "" {
    "[bright_blue]Run Command:[/] " + runCmd
  }

  /**
   * The lines `print_details` joins with newlines: name, directory and path
   * always, description, GitHub and run command only when non-empty, in
   * that order.
   */
  function DetailLines(name: string, description: string, directory: string, path: string,
                       github: string, runCmd: string): (r: seq<string>)
    ensures r == [NameLine(name)]
                 + (if description != "" then [DescriptionLine(description)] else [])
                 + [DirectoryLine(directory), PathLine(path)]
                 + (if github != "" then [GithubLine(github)] else [])
                 + (if runCmd != "" then [RunLine(runCmd)] else [])
  {
    var l1 := if description != "" then DescriptionLine(description) else "";
    var l4 := if github != "" then GithubLine(github) else "";
    var l5 := if runCmd != "" then RunLine(runCmd) else "";
    NonEmptySix(NameLine(name), l1, DirectoryLine(directory), PathLine(path), l4, l5);
    NonEmpty([NameLine(name), l1, DirectoryLine(directory), PathLine(path), l4, l5])
  }
}
