/**
 The story: the list of layout elements ("flowables") both scripts hand to the
 PDF renderer. A title paragraph, then per category a heading paragraph, one
 checkbox-bulleted paragraph per task and a spacer; finally one trailing spacer
 is dropped so the document does not end on a blank page.

 The catalog is the parsed JSON object: categories in insertion order, each with
 its tasks in list order.
 */
module StoryBuilder {

  /** The bullet text given to every task paragraph: U+2610 BALLOT BOX. */
  const SquareBullet: string := "\U{2610}"

  /** Width and height, in points, of the spacer appended after each category. */
  const GapWidth: nat := 1
  const GapHeight: nat := 12

  /** The element kinds of the story; the paragraph style is fixed by the kind. */
  datatype Flowable =
    | Title(text: string)
    | Heading(text: string)
    | Task(bullet: string, text: string)
    | Spacer(width: nat, height: nat)

  datatype Category = Category(name: string, tasks: seq<string>)

  /** The parsed task catalog, in the JSON object's key order. */
  type Catalog = seq<Category>

  const Gap: Flowable := Spacer(GapWidth, GapHeight)

  // ---------------------------------------------------------------------------
  // Specification of what the loops build

  /** One bulleted paragraph per task, in list order. */
  function Tasks(tasks: seq<string>): seq<Flowable>
  {
    seq(|tasks|, j requires 0 <= j < |tasks| => Task(SquareBullet, tasks[j]))
  }

  /** What one category contributes before its spacer. */
  function Block(cat: Category): seq<Flowable>
  {
    [Heading(cat.name)] + Tasks(cat.tasks)
  }

  /** What the category loop appends for the categories of `c`, each followed by a spacer. */
  function Sections(c: Catalog): seq<Flowable>
    decreases |c|
  {
    if c == [] then [] else Sections(c[..|c| - 1]) + Block(c[|c| - 1]) + [Gap]
  }

  /** The conditional pop: drop the last element if, and only if, it is a spacer. */
  function Trim(s: seq<Flowable>): seq<Flowable>
  {
    if |s| > 0 && s[|s| - 1].Spacer? then s[..|s| - 1] else s
  }

  /** The story the builder produces for `title` and catalog `c`. */
  function Story(title: string, c: Catalog): seq<Flowable>
  {
    Trim([Title(title)] + Sections(c))
  }

  // ---------------------------------------------------------------------------
  // Independent reference: blocks with spacers only BETWEEN consecutive categories

  function Joined(c: Catalog): seq<Flowable>
    decreases |c|
  {
    if |c| == 0 then []
    else if |c| == 1 then Block(c[0])
    else Joined(c[..|c| - 1]) + [Gap] + Block(c[|c| - 1])
  }

  // ---------------------------------------------------------------------------
  // Counting helpers

  /** Total number of tasks in the catalog. */
  function TaskCount(c: Catalog): nat
    decreases |c|
  {
    if c == [] then 0 else TaskCount(c[..|c| - 1]) + |c[|c| - 1].tasks|
  }

  /** Sum over the categories of one heading plus its task lines. */
  function LineCount(c: Catalog): nat
    decreases |c|
  {
    if c == [] then 0 else LineCount(c[..|c| - 1]) + 1 + |c[|c| - 1].tasks|
  }

  /** Number of spacer elements in `s`. */
  function Spacers(s: seq<Flowable>): nat
    decreases |s|
  {
    if s == [] then 0 else Spacers(s[..|s| - 1]) + (if s[|s| - 1].Spacer? then 1 else 0)
  }

  /** The texts of the heading elements of `s`, in order. */
  function Headings(s: seq<Flowable>): seq<string>
    decreases |s|
  {
    if s == [] then []
    else Headings(s[..|s| - 1]) + (if s[|s| - 1].Heading? then [s[|s| - 1].text] else [])
  }

  /** The category names of the catalog, in order. */
  function Names(c: Catalog): seq<string>
  {
    seq(|c|, i requires 0 <= i < |c| => c[i].name)
  }

  /** Index in the story of the heading of category `i`. */
  function Start(c: Catalog, i: nat): nat
    requires i <= |c|
  {
    1 + 2 * i + TaskCount(c[..i])
  }

  // ---------------------------------------------------------------------------
  // The builder (the story loops and the trailing-spacer pop)

  /** Builds the story exactly as the scripts do: appends in two nested loops, then pops once. */
  method BuildStory(title: string, catalog: Catalog) returns (story: seq<Flowable>)
    ensures story == Story(title, catalog)
  {
    story := [Title(title)];
    for i := 0 to |catalog|
      invariant story == [Title(title)] + Sections(catalog[..i])
    {
      var cat := catalog[i];
      story := story + [Heading(cat.name)];
      for j := 0 to |cat.tasks|
        invariant story == [Title(title)] + Sections(catalog[..i]) + [Heading(cat.name)] + Tasks(cat.tasks[..j])
      {
        story := story + [Task(SquareBullet, cat.tasks[j])];
      }
      assert cat.tasks[..|cat.tasks|] == cat.tasks;
      story := story + [Spacer(GapWidth, GapHeight)];
      assert catalog[..i + 1][..i] == catalog[..i];
    }
    assert catalog[..|catalog|] == catalog;
    if |story| > 0 && story[|story| - 1].Spacer? {
      story := story[..|story| - 1];
    }
  }

  // ---------------------------------------------------------------------------
  // Properties of the trim

  /** The pop removes at most one element, only a spacer, and keeps every earlier element. */
  lemma TrimDropsOnlyTrailingSpacer(s: seq<Flowable>)
    ensures var r := Trim(s);
      && r == s[..|r|]
      && (|r| == |s| || |r| == |s| - 1)
      && (|r| < |s| <==> (|s| > 0 && s[|s| - 1].Spacer?))
  {
  }

  // ---------------------------------------------------------------------------
  // Structural lemmas on Sections

  lemma {:induction false} SectionsAppend(a: Catalog, b: Catalog)
    ensures Sections(a + b) == Sections(a) + Sections(b)
    decreases |b|
  {
    if b == [] {
      assert a + b == a;
    } else {
      var b' := b[..|b| - 1];
      SectionsAppend(a, b');
      assert (a + b)[..|a + b| - 1] == a + b';
      assert (a + b)[|a + b| - 1] == b[|b| - 1];
    }
  }

  lemma {:induction false} SectionsLength(c: Catalog)
    ensures |Sections(c)| == 2 * |c| + TaskCount(c)
    decreases |c|
  {
    if c != [] {
      SectionsLength(c[..|c| - 1]);
    }
  }

  /** Sections are the reference blocks-with-separators plus one trailing spacer. */
  lemma {:induction false} SectionsJoined(c: Catalog)
    requires c != []
    ensures Sections(c) == Joined(c) + [Gap]
    decreases |c|
  {
    if |c| == 1 {
      assert c[..0] == [];
    } else {
      SectionsJoined(c[..|c| - 1]);
    }
  }

  lemma {:induction false} SectionsHaveNoTitle(c: Catalog)
    ensures forall k :: 0 <= k < |Sections(c)| ==> !Sections(c)[k].Title?
    decreases |c|
  {
    if c != [] {
      SectionsHaveNoTitle(c[..|c| - 1]);
    }
  }

  // ---------------------------------------------------------------------------
  // Properties of the story

  /**
   The story is the title followed by the category blocks with one spacer between
   each two consecutive categories, and no spacer after the last one.
   */
  lemma StoryIsTitleThenJoined(title: string, c: Catalog)
    ensures Story(title, c) == [Title(title)] + Joined(c)
  {
    if c != [] {
      SectionsJoined(c);
      assert [Title(title)] + Sections(c) == [Title(title)] + Joined(c) + [Gap];
    }
  }

  /** Exactly one title, the first element, carrying the given title text. */
  lemma StoryTitleFirstAndOnly(title: string, c: Catalog)
    ensures |Story(title, c)| >= 1
    ensures Story(title, c)[0] == Title(title)
    ensures forall k :: 0 < k < |Story(title, c)| ==> !Story(title, c)[k].Title?
  {
    SectionsHaveNoTitle(c);
    var u := [Title(title)] + Sections(c);
    assert forall k :: 0 < k < |u| ==> u[k] == Sections(c)[k - 1];
    if c != [] {
      SectionsLength(c);
    }
  }

  /** The story never ends with a spacer. */
  lemma StoryDoesNotEndWithSpacer(title: string, c: Catalog)
    ensures |Story(title, c)| > 0 && !Story(title, c)[|Story(title, c)| - 1].Spacer?
  {
    StoryIsTitleThenJoined(title, c);
    if |c| > 0 {
      var last := Block(c[|c| - 1]);
      assert Joined(c)[|Joined(c)| - 1] == last[|last| - 1];
      if |c[|c| - 1].tasks| > 0 {
        assert last[|last| - 1] == Task(SquareBullet, c[|c| - 1].tasks[|c[|c| - 1].tasks| - 1]);
      }
    }
  }

  lemma {:induction false} LineCountIsTaskCount(c: Catalog)
    ensures LineCount(c) == |c| + TaskCount(c)
    decreases |c|
  {
    if c != [] {
      LineCountIsTaskCount(c[..|c| - 1]);
    }
  }

  /** Story length: one title, each category's heading and tasks, and n-1 spacers. */
  lemma StoryLength(title: string, c: Catalog)
    ensures |Story(title, c)| == 1 + LineCount(c) + (if |c| == 0 then 0 else |c| - 1)
  {
    SectionsLength(c);
    LineCountIsTaskCount(c);
    if c != [] {
      assert Sections(c)[|Sections(c)| - 1] == Gap;
    }
  }

  lemma {:induction false} SpacersAppend(a: seq<Flowable>, b: seq<Flowable>)
    ensures Spacers(a + b) == Spacers(a) + Spacers(b)
    decreases |b|
  {
    if b == [] {
      assert a + b == a;
    } else {
      SpacersAppend(a, b[..|b| - 1]);
      assert (a + b)[..|a + b| - 1] == a + b[..|b| - 1];
    }
  }

  lemma {:induction false} SpacersNone(s: seq<Flowable>)
    requires forall k :: 0 <= k < |s| ==> !s[k].Spacer?
    ensures Spacers(s) == 0
    decreases |s|
  {
    if s != [] {
      SpacersNone(s[..|s| - 1]);
    }
  }

  lemma {:induction false} JoinedSpacers(c: Catalog)
    requires c != []
    ensures Spacers(Joined(c)) == |c| - 1
    decreases |c|
  {
    SpacersNone(Block(c[|c| - 1]));
    if |c| > 1 {
      JoinedSpacers(c[..|c| - 1]);
      SpacersAppend(Joined(c[..|c| - 1]), [Gap]);
      SpacersAppend(Joined(c[..|c| - 1]) + [Gap], Block(c[|c| - 1]));
      assert Spacers([Gap]) == 1 by {
        assert [Gap][..0] == [];
      }
    }
  }

  /** n-1 spacers for n >= 1 categories, none for an empty catalog. */
  lemma StorySpacerCount(title: string, c: Catalog)
    ensures Spacers(Story(title, c)) == if |c| == 0 then 0 else |c| - 1
  {
    StoryIsTitleThenJoined(title, c);
    SpacersAppend([Title(title)], Joined(c));
    SpacersNone([Title(title)]);
    if c != [] {
      JoinedSpacers(c);
    }
  }

  lemma {:induction false} HeadingsAppend(a: seq<Flowable>, b: seq<Flowable>)
    ensures Headings(a + b) == Headings(a) + Headings(b)
    decreases |b|
  {
    if b == [] {
      assert a + b == a;
    } else {
      HeadingsAppend(a, b[..|b| - 1]);
      assert (a + b)[..|a + b| - 1] == a + b[..|b| - 1];
    }
  }

  lemma {:induction false} HeadingsNone(s: seq<Flowable>)
    requires forall k :: 0 <= k < |s| ==> !s[k].Heading?
    ensures Headings(s) == []
    decreases |s|
  {
    if s != [] {
      HeadingsNone(s[..|s| - 1]);
    }
  }

  lemma BlockHeadings(cat: Category)
    ensures Headings(Block(cat)) == [cat.name]
  {
    HeadingsNone(Tasks(cat.tasks));
    HeadingsAppend([Heading(cat.name)], Tasks(cat.tasks));
    assert Headings([Heading(cat.name)]) == [cat.name] by {
      assert [Heading(cat.name)][..0] == [];
    }
  }

  lemma {:induction false} SectionsHeadings(c: Catalog)
    ensures Headings(Sections(c)) == Names(c)
    decreases |c|
  {
    if c != [] {
      var init := c[..|c| - 1];
      SectionsHeadings(init);
      BlockHeadings(c[|c| - 1]);
      HeadingsAppend(Sections(init), Block(c[|c| - 1]));
      HeadingsAppend(Sections(init) + Block(c[|c| - 1]), [Gap]);
      HeadingsNone([Gap]);
      assert Names(c) == Names(init) + [c[|c| - 1].name];
    }
  }

  /** The headings of the story are exactly the category names, in catalog order. */
  lemma StoryHeadingsInOrder(title: string, c: Catalog)
    ensures Headings(Story(title, c)) == Names(c)
  {
    var u := [Title(title)] + Sections(c);
    SectionsHeadings(c);
    HeadingsAppend([Title(title)], Sections(c));
    HeadingsNone([Title(title)]);
    if |u| > 0 && u[|u| - 1].Spacer? {
      assert Headings(u) == Headings(u[..|u| - 1]);
    }
  }

  /** The untrimmed story around category `i`: everything before it, its block, its spacer, the rest. */
  lemma {:induction false} SplitAt(title: string, c: Catalog, i: nat)
    requires i < |c|
    ensures [Title(title)] + Sections(c)
         == [Title(title)] + Sections(c[..i]) + Block(c[i]) + [Gap] + Sections(c[i + 1..])
    ensures |[Title(title)] + Sections(c[..i])| == Start(c, i)
  {
    var before, rest := c[..i], c[i + 1..];
    assert c == before + [c[i]] + rest;
    SectionsAppend(before + [c[i]], rest);
    SectionsAppend(before, [c[i]]);
    assert Sections([c[i]]) == Block(c[i]) + [Gap] by {
      assert [c[i]][..0] == [];
    }
    SectionsLength(before);
  }

  /**
   Category `i` sits at Start(c, i): its heading, then its tasks as U+2610 bullets in
   list order, then a spacer when another category follows, and the end of the story
   when it is the last one. An empty category still has its heading (and its spacer
   unless it is last).
   */
  lemma SectionAt(title: string, c: Catalog, i: nat)
    requires i < |c|
    ensures var s, k, n := Story(title, c), Start(c, i), |c[i].tasks|;
      && k + n < |s|
      && s[k] == Heading(c[i].name)
      && (forall j :: 0 <= j < n ==> s[k + 1 + j] == Task(SquareBullet, c[i].tasks[j]))
      && (i + 1 < |c| ==> k + n + 1 < |s| && s[k + n + 1] == Gap && Start(c, i + 1) == k + n + 2)
      && (i + 1 == |c| ==> |s| == k + n + 1)
  {
    SplitAt(title, c, i);
    var pre, rest := [Title(title)] + Sections(c[..i]), Sections(c[i + 1..]);
    var k, n := Start(c, i), |c[i].tasks|;
    var u := pre + Block(c[i]) + [Gap] + rest;
    assert |u| == k + n + 2 + |rest|;
    assert forall x :: 0 <= x <= n ==> u[k + x] == Block(c[i])[x];
    assert u[k + n + 1] == Gap;
    TrimDropsOnlyTrailingSpacer(u);
    if i + 1 < |c| {
      SectionsLength(c[i + 1..]);
      assert c[..i + 1] == c[..i] + [c[i]];
      assert TaskCount(c[..i + 1]) == TaskCount(c[..i]) + n;
    } else {
      assert c[i + 1..] == [];
    }
  }

  /** The example catalog {"Health": ["Drink water", "Stretch"], "Work": ["Email"]}. */
  lemma ExampleStory()
    ensures Story("Daily Tasks", [Category("Health", ["Drink water", "Stretch"]), Category("Work", ["Email"])])
         == [Title("Daily Tasks"),
             Heading("Health"), Task(SquareBullet, "Drink water"), Task(SquareBullet, "Stretch"),
             Spacer(1, 12),
             Heading("Work"), Task(SquareBullet, "Email")]
  {
    var c := [Category("Health", ["Drink water", "Stretch"]), Category("Work", ["Email"])];
    StoryIsTitleThenJoined("Daily Tasks", c);
    assert c[..1] == [c[0]];
    assert Tasks(c[0].tasks) == [Task(SquareBullet, "Drink water"), Task(SquareBullet, "Stretch")];
    assert Tasks(c[1].tasks) == [Task(SquareBullet, "Email")];
  }
}
