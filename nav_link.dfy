/** The sidebar link's active-path rule and the two decorations it switches. */
module NavLink {
  /** `pathname.startsWith(prefix)`. */
  predicate StartsWith(pathname: string, prefix: string) {
    |prefix| <= |pathname| && pathname[..|prefix|] == prefix
  }

  /** `isActive`: the root link only on the root, any other link on every path that starts with it. */
  predicate IsActive(href: string, pathname: string) {
    if href == "/" then pathname == "/" else StartsWith(pathname, href)
  }

  /** What the link renders around its children. */
  datatype Decoration = Decoration(classes: string, hoverSweep: bool, activeIndicator: bool)

  const BaseClasses: string :=
    "flex flex-row items-center gap-3 rounded-lg px-3 py-2.5 text-sm font-medium transition-all duration-200 group relative overflow-hidden"
  const ActiveClasses: string := "bg-primary text-primary-foreground shadow-md"
  const IdleClasses: string := "text-muted-foreground hover:bg-accent hover:text-foreground"

  /** The class list and the two optional spans of the rendered link. */
  function Render(href: string, pathname: string): (d: Decoration)
    ensures d.activeIndicator <==> IsActive(href, pathname)
    ensures d.hoverSweep <==> !IsActive(href, pathname)
    ensures d.classes == BaseClasses + " " + (if IsActive(href, pathname) then ActiveClasses else IdleClasses)
  {
    var active := IsActive(href, pathname);
    Decoration(BaseClasses + " " + (if active then ActiveClasses else IdleClasses), !active, active)
  }

  /** Exactly one of the two spans is rendered. */
  lemma OneDecoration(href: string, pathname: string)
    ensures Render(href, pathname).hoverSweep != Render(href, pathname).activeIndicator
  {
  }

  /** The root link is active on "/" and on no other path. */
  lemma RootOnlyAtRoot(pathname: string)
    ensures IsActive("/", pathname) <==> pathname == "/"
  {
  }

  /** Any other link is active on itself and on everything below it, and on nothing shorter. */
  lemma ActiveBelowHref(href: string, rest: string, pathname: string)
    requires href != "/"
    ensures IsActive(href, href + rest)
    ensures |pathname| < |href| ==> !IsActive(href, pathname)
  {
    assert (href + rest)[..|href|] == href;
  }

  /** A match on a text prefix, not on a path segment: "/expenses" is active on "/expensesx" too. */
  lemma PrefixNotSegment(href: string, below: string, sibling: string)
    requires href == "/expenses" && below == "/expenses/1" && sibling == "/expensesx"
    ensures IsActive(href, below)
    ensures IsActive(href, sibling)
  {
    ActiveBelowHref(href, "/1", below);
    ActiveBelowHref(href, "x", sibling);
  }

  /** A link is active whenever a longer link that starts with it is: so "/" aside, parents light up with their children. */
  lemma {:induction false} ParentActiveWithChild(parent: string, child: string, pathname: string)
    requires parent != "/" && StartsWith(child, parent)
    requires IsActive(child, pathname) && child != "/"
    ensures IsActive(parent, pathname)
  {
    assert pathname[..|child|][..|parent|] == pathname[..|parent|];
  }
}
