/** The cursor stack behind the Previous/Next buttons of both issue lists
    (static/hello-world/src/IssuesList.js:33-36, :104-116 and its copy in
    App.js:23-26, :87-99). The listing API only pages forward, so the view
    keeps the cursors it has left behind in `prevTokens`, which starts as
    `[""]`. These are the transitions as the handlers write them; the view
    classes hold the same state in fields and are specified by them. */
module Pagination {

  /** `prevTokens` and `currentToken` of a view. */
  datatype Cursor = Cursor(prevTokens: seq<string>, currentToken: string)

  /** The state before any navigation: `useState([""])`, `useState("")`. */
  const Initial := Cursor([""], "")

  /** The stack is never empty and its bottom entry is the first page's `""`. */
  predicate Valid(c: Cursor) {
    |c.prevTokens| >= 1 && c.prevTokens[0] == ""
  }

  /** Previous is enabled (`isDisabled={prevTokens.length <= 1}`). */
  predicate CanGoBack(c: Cursor) {
    |c.prevTokens| > 1
  }

  function Last(s: seq<string>): string
    requires |s| > 0
  {
    s[|s| - 1]
  }

  /** `handleNext`: push the current cursor and adopt the stored next one. */
  function Next(c: Cursor, nextToken: string): (r: Cursor)
    ensures |r.prevTokens| == |c.prevTokens| + 1
    ensures r.prevTokens[..|c.prevTokens|] == c.prevTokens
    ensures Last(r.prevTokens) == c.currentToken
    ensures r.currentToken == nextToken
  {
    Cursor(c.prevTokens + [c.currentToken], nextToken)
  }

  /** `handlePrevious`: a no-op at depth one; otherwise pop the top entry and
      adopt the entry that is then on top. */
  function Previous(c: Cursor): (r: Cursor)
    ensures !CanGoBack(c) ==> r == c
    ensures CanGoBack(c) ==>
      && |r.prevTokens| == |c.prevTokens| - 1
      && r.prevTokens == c.prevTokens[..|c.prevTokens| - 1]
      && r.currentToken == c.prevTokens[|c.prevTokens| - 2]
  {
    if |c.prevTokens| <= 1 then c
    else
      var popped := c.prevTokens[..|c.prevTokens| - 1];
      Cursor(popped, Last(popped))
  }

  /** A click on one of the two buttons; Next carries the `nextToken` the last
      fetch stored. */
  datatype Nav = Forward(nextToken: string) | Back

  function Step(c: Cursor, nav: Nav): Cursor {
    match nav
    case Forward(t) => Next(c, t)
    case Back => Previous(c)
  }

  /** The cursor after a sequence of clicks, the last click applied last. */
  function Run(c: Cursor, navs: seq<Nav>): Cursor
    decreases |navs|
  {
    if navs == [] then c else Step(Run(c, navs[..|navs| - 1]), navs[|navs| - 1])
  }

  /** One click keeps the stack non-empty with `""` at the bottom. */
  lemma StepKeepsValid(c: Cursor, nav: Nav)
    requires Valid(c)
    ensures Valid(Step(c, nav))
  {
  }

  /** Under any sequence of clicks the stack stays non-empty with `""` at the
      bottom, so Previous can always read the new top. */
  lemma {:induction false} RunKeepsValid(c: Cursor, navs: seq<Nav>)
    requires Valid(c)
    ensures Valid(Run(c, navs))
    decreases |navs|
  {
    if navs != [] {
      RunKeepsValid(c, navs[..|navs| - 1]);
      StepKeepsValid(Run(c, navs[..|navs| - 1]), navs[|navs| - 1]);
    }
  }

  /** Previous right after Next restores the stack, but adopts the entry below
      the pushed cursor rather than the cursor Next left. */
  lemma BackAfterForward(c: Cursor, t: string)
    requires Valid(c)
    ensures Previous(Next(c, t)) == Cursor(c.prevTokens, Last(c.prevTokens))
  {
    assert (c.prevTokens + [c.currentToken])[..|c.prevTokens|] == c.prevTokens;
  }

  /** The clicks of walking forward through the cursors `ts` in order. */
  function Forwards(ts: seq<string>): (navs: seq<Nav>)
    ensures |navs| == |ts|
    ensures forall i :: 0 <= i < |ts| ==> navs[i] == Forward(ts[i])
  {
    seq(|ts|, i requires 0 <= i < |ts| => Forward(ts[i]))
  }

  /** The cursor of page `i` (0-based) on a forward walk through `ts`: page 0
      is fetched with `""`, page `i` with the `i`-th returned cursor. */
  function PageCursor(ts: seq<string>, i: nat): string
    requires i <= |ts|
  {
    if i == 0 then "" else ts[i - 1]
  }

  /** After walking forward from the first page through `ts` (|ts| >= 1), the
      stack holds `""` twice, once for the initial entry and once for the first
      page's cursor, followed by the cursors of the pages in between. */
  lemma {:induction false} ForwardWalk(ts: seq<string>)
    requires |ts| >= 1
    ensures Run(Initial, Forwards(ts)) == Cursor(["", ""] + ts[..|ts| - 1], ts[|ts| - 1])
    decreases |ts|
  {
    var navs := Forwards(ts);
    var n := |ts|;
    if n == 1 {
      assert navs[..0] == [];
    } else {
      assert navs[..n - 1] == Forwards(ts[..n - 1]);
      ForwardWalk(ts[..n - 1]);
      assert ts[..n - 1][..n - 2] == ts[..n - 2];
      assert ts[..n - 2] + [ts[n - 2]] == ts[..n - 1];
    }
  }

  /** Going back from page `|ts|` (0-based) of a forward walk lands on page
      `|ts| - 2`, two pages back, whenever the walk reached page 2 or later:
      e.g. the stack `["", "", C1]` pops to `["", ""]` and adopts `""`. */
  lemma {:induction false} BackSkipsAPage(ts: seq<string>)
    requires |ts| >= 2
    ensures Run(Initial, Forwards(ts) + [Back]).currentToken == PageCursor(ts, |ts| - 2)
    ensures Run(Initial, Forwards(ts) + [Back]).prevTokens == ["", ""] + ts[..|ts| - 2]
  {
    var n := |ts|;
    ForwardWalk(ts);
    var navs := Forwards(ts) + [Back];
    assert navs[..n] == Forwards(ts);
    var before := Run(Initial, Forwards(ts));
    assert (["", ""] + ts[..n - 1])[..n] == ["", ""] + ts[..n - 2];
    assert Run(Initial, navs) == Previous(before);
  }

  /** The concrete case: from page 3 (cursor C2, reached through C1) Previous
      returns to the first page instead of the second. */
  lemma ThirdPageBackLandsOnFirst(c1: string, c2: string)
    ensures Run(Initial, [Forward(c1), Forward(c2), Back]) == Cursor(["", ""], "")
  {
    BackSkipsAPage([c1, c2]);
    assert Forwards([c1, c2]) + [Back] == [Forward(c1), Forward(c2), Back];
  }

  /** From the second page Previous does reach the first page, because the
      initial entry and the first page's cursor are both `""`. */
  lemma SecondPageBackLandsOnFirst(c1: string)
    ensures Run(Initial, [Forward(c1), Back]) == Initial
  {
    assert [Forward(c1), Back][..1] == [Forward(c1)];
    assert [Forward(c1)][..0] == [];
    assert Run(Initial, [Forward(c1)]) == Cursor(["", ""], c1);
    assert Previous(Cursor(["", ""], c1)) == Initial;
  }
}
