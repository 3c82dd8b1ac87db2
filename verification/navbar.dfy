/**
 * The top bar (`src/components/Navbar.tsx`): breadcrumbs derived from the
 * current path, and the name and job title shown for the signed-in user.
 */
module Navbar {
  import opened Wrappers
  import opened Strings
  import opened Accounts

  // ---------------------------------------------------------------------------
  // Segments

  /** `parts.filter(Boolean)` on strings: drops the empty pieces. */
  function NonEmpty(parts: seq<string>): (r: seq<string>)
    ensures forall i :: 0 <= i < |r| ==> r[i] != ""
    ensures forall x :: x in r <==> x in parts && x != ""
    decreases |parts|
  {
    if |parts| == 0 then []
    else if parts[0] == "" then NonEmpty(parts[1..])
    else
      assert parts == [parts[0]] + parts[1..];
      [parts[0]] + NonEmpty(parts[1..])
  }

  lemma {:induction false} NonEmptyConcat(a: seq<string>, b: seq<string>)
    ensures NonEmpty(a + b) == NonEmpty(a) + NonEmpty(b)
    decreases |a|
  {
    if |a| == 0 {
      assert a + b == b;
    } else {
      assert (a + b)[0] == a[0];
      assert (a + b)[1..] == a[1..] + b;
      NonEmptyConcat(a[1..], b);
      if a[0] == "" {
        assert NonEmpty(a + b) == NonEmpty(a[1..] + b);
        assert NonEmpty(a) == NonEmpty(a[1..]);
      } else {
        assert NonEmpty(a + b) == [a[0]] + NonEmpty(a[1..] + b);
        assert NonEmpty(a) == [a[0]] + NonEmpty(a[1..]);
        assert [a[0]] + (NonEmpty(a[1..]) + NonEmpty(b)) == ([a[0]] + NonEmpty(a[1..])) + NonEmpty(b);
      }
    }
  }

  lemma {:induction false} NonEmptyKeepsNonEmpty(parts: seq<string>)
    requires forall i :: 0 <= i < |parts| ==> parts[i] != ""
    ensures NonEmpty(parts) == parts
    decreases |parts|
  {
    if |parts| > 0 {
      NonEmptyKeepsNonEmpty(parts[1..]);
    }
  }

  /** `pathname.split('/').filter(Boolean)` */
  function Segments(pathname: string): (segs: seq<string>)
    ensures forall i :: 0 <= i < |segs| ==> segs[i] != "" && '/' !in segs[i]
  {
    var parts := Split(pathname, '/');
    var segs := NonEmpty(parts);
    assert forall i :: 0 <= i < |segs| ==> segs[i] in parts;
    segs
  }

  /** A slash between two paths contributes no segment of its own. */
  lemma SegmentsConcat(a: string, b: string)
    ensures Segments(a + "/" + b) == Segments(a) + Segments(b)
  {
    SplitConcat(a, b, '/');
    NonEmptyConcat(Split(a, '/'), Split(b, '/'));
  }

  /** The root, and leading, trailing or repeated slashes, add no crumbs. */
  lemma SlashesAddNoSegments(p: string)
    ensures Segments("") == [] && Segments("/") == []
    ensures Segments(p + "/") == Segments(p)
    ensures Segments("/" + p) == Segments(p)
    ensures Segments(p + "//") == Segments(p)
  {
    assert Split("", '/') == [""];
    SegmentsConcat("", "");
    assert "" + "/" + "" == "/";
    SegmentsConcat(p, "");
    assert p + "/" + "" == p + "/";
    SegmentsConcat("", p);
    assert "" + "/" + p == "/" + p;
    SegmentsConcat(p + "/", "");
    assert p + "/" + "/" + "" == p + "//";
  }

  /** Segments are recovered from the path they spell. */
  lemma SegmentsOfSpelledPath(segs: seq<string>)
    requires forall i :: 0 <= i < |segs| ==> segs[i] != "" && '/' !in segs[i]
    ensures Segments("/" + Join(segs, '/')) == segs
  {
    SlashesAddNoSegments(Join(segs, '/'));
    if |segs| > 0 {
      SplitJoin(segs, '/');
      NonEmptyKeepsNonEmpty(segs);
    }
  }

  // ---------------------------------------------------------------------------
  // Breadcrumbs

  /** The fixed labels of known segments (`segmentLabels`). */
  const SegmentLabels: map<string, string> := map[
    "dashboard" := "Inicio",
    "cotizaciones" := "Cotizaciones",
    "clientes" := "Clientes",
    "flota" := "Flota",
    "rutas" := "Rutas",
    "correos" := "Correos",
    "tarifario" := "Tarifario",
    "reportes" := "Reportes",
    "configuracion" := "Configuración",
    "usuarios" := "Usuarios",
    "nueva" := "Nueva",
    "editar" := "Editar",
    "detalle" := "Detalle"
  ]

  /** A crumb's label: the table's label, else the segment with its first character upper-cased. */
  function Label(segment: string): (text: string)
    ensures segment in SegmentLabels ==> text == SegmentLabels[segment]
    ensures segment !in SegmentLabels ==>
      && |text| == |segment|
      && (|segment| > 0 ==> text[0] == UpperChar(segment[0]) && text[1..] == segment[1..])
  {
    if segment in SegmentLabels && SegmentLabels[segment] != "" then SegmentLabels[segment]
    else Capitalize(segment)
  }

  /** One breadcrumb: its link, its caption, whether it is the current page, and whether a chevron precedes it. */
  datatype Crumb = Crumb(path: string, caption: string, isLast: bool, hasSeparator: bool)

  /** `/${segments.slice(0, index + 1).join('/')}` */
  function CrumbPath(segs: seq<string>, index: nat): (path: string)
    requires index < |segs|
    ensures |path| >= 1 && path[0] == '/'
    ensures IsSuffix(segs[index], path)
  {
    var upTo := segs[..index + 1];
    var joined := Join(upTo, '/');
    if index == 0 then
      SuffixOfConcat("/", joined);
      "/" + joined
    else
      assert upTo == segs[..index] + [segs[index]];
      JoinSnoc(segs[..index], segs[index], '/');
      assert "/" + joined == ("/" + Join(segs[..index], '/') + "/") + segs[index];
      SuffixOfConcat("/" + Join(segs[..index], '/') + "/", segs[index]);
      "/" + joined
  }

  /** `getBreadcrumbs()` */
  function Breadcrumbs(pathname: string): (crumbs: seq<Crumb>)
    ensures var segs := Segments(pathname);
      && |crumbs| == |segs|
      && (forall i :: 0 <= i < |crumbs| ==> (crumbs[i].isLast <==> i == |crumbs| - 1))
      && (forall i :: 0 <= i < |crumbs| ==> (crumbs[i].hasSeparator <==> i > 0))
      && (forall i :: 0 <= i < |crumbs| ==> crumbs[i].caption == Label(segs[i]))
      && (forall i :: 0 <= i < |crumbs| ==> crumbs[i].path == CrumbPath(segs, i))
  {
    var segs := Segments(pathname);
    seq(|segs|, i requires 0 <= i < |segs| =>
      Crumb(CrumbPath(segs, i), Label(segs[i]), i == |segs| - 1, i > 0))
  }

  /** The path of crumb i + 1 extends the path of crumb i by "/" and segment i + 1. */
  lemma CrumbPathStep(segs: seq<string>, i: nat)
    requires i + 1 < |segs|
    ensures CrumbPath(segs, i + 1) == CrumbPath(segs, i) + "/" + segs[i + 1]
    ensures IsPrefix(CrumbPath(segs, i), CrumbPath(segs, i + 1))
  {
    assert segs[..i + 2] == segs[..i + 1] + [segs[i + 1]];
    JoinSnoc(segs[..i + 1], segs[i + 1], '/');
    var a := CrumbPath(segs, i);
    assert (a + "/" + segs[i + 1])[..|a|] == a;
  }

  /** Re-reading the segments of crumb i's path gives the first i + 1 segments. */
  lemma CrumbPathSegments(segs: seq<string>, i: nat)
    requires i < |segs|
    requires forall k :: 0 <= k < |segs| ==> segs[k] != "" && '/' !in segs[k]
    ensures Segments(CrumbPath(segs, i)) == segs[..i + 1]
  {
    var prefix := segs[..i + 1];
    assert forall k :: 0 <= k < |prefix| ==> prefix[k] == segs[k];
    SegmentsOfSpelledPath(prefix);
  }

  /**
   * The crumb paths grow one segment at a time: the first is "/" and the
   * first segment, each next one extends the previous by "/" and its own
   * segment (so each is a prefix of the next), and each path's segments are
   * exactly the leading segments of the current path.
   */
  lemma CrumbPathsArePrefixes(pathname: string)
    ensures var segs, crumbs := Segments(pathname), Breadcrumbs(pathname);
      && (|crumbs| > 0 ==> crumbs[0].path == "/" + segs[0])
      && (forall i :: 0 <= i < |crumbs| - 1 ==>
            crumbs[i + 1].path == crumbs[i].path + "/" + segs[i + 1]
            && IsPrefix(crumbs[i].path, crumbs[i + 1].path))
      && (forall i :: 0 <= i < |crumbs| ==> Segments(crumbs[i].path) == segs[..i + 1])
  {
    var segs, crumbs := Segments(pathname), Breadcrumbs(pathname);
    if |crumbs| > 0 {
      assert segs[..1] == [segs[0]];
    }
    forall i | 0 <= i < |crumbs| - 1
      ensures crumbs[i + 1].path == crumbs[i].path + "/" + segs[i + 1]
      ensures IsPrefix(crumbs[i].path, crumbs[i + 1].path)
    {
      CrumbPathStep(segs, i);
    }
    forall i | 0 <= i < |crumbs|
      ensures Segments(crumbs[i].path) == segs[..i + 1]
    {
      CrumbPathSegments(segs, i);
    }
  }

  // ---------------------------------------------------------------------------
  // Signed-in user

  /** `email.split('@')[0]`: the text before the first '@', or all of it. */
  function EmailLocalPart(email: string): (local: string)
    ensures '@' !in local
    ensures IsPrefix(local, email)
    ensures |local| < |email| ==> email[|local|] == '@'
  {
    var parts := Split(email, '@');
    JoinSplit(email, '@');
    assert |parts| > 1 ==> email == parts[0] + "@" + Join(parts[1..], '@');
    assert |parts| == 1 ==> email == parts[0];
    parts[0]
  }

  /** `full_name || email?.split('@')[0] || "Usuario"` */
  function DisplayName(u: User): (name: string)
    ensures Truthy(u.meta, "full_name") ==> name == u.meta["full_name"]
    ensures !Truthy(u.meta, "full_name") && u.email.Some? && EmailLocalPart(u.email.value) != "" ==>
      name == EmailLocalPart(u.email.value)
    ensures !Truthy(u.meta, "full_name") && (u.email.None? || EmailLocalPart(u.email.value) == "") ==>
      name == "Usuario"
  {
    if Truthy(u.meta, "full_name") then u.meta["full_name"]
    else if u.email.Some? && EmailLocalPart(u.email.value) != "" then EmailLocalPart(u.email.value)
    else "Usuario"
  }

  /** What the top bar shows about the user. */
  datatype UserBadge = UserBadge(avatarUrl: Option<string>, userName: string, userEmail: string, userJobTitle: string)

  const NoUserBadge: UserBadge := UserBadge(None, "", "", "")

  /** The badge once `getUser` has resolved; without a user nothing is set. */
  function LoadBadge(user: Option<User>): (b: UserBadge)
    ensures user.None? ==> b == NoUserBadge
    ensures user.Some? ==>
      && b.userName != "" && b.userJobTitle != ""
      && b.userName == DisplayName(user.value)
      && b.userJobTitle == MetaOr(user.value.meta, "job_title", "Usuario")
      && b.userEmail == TextOr(user.value.email, "")
      && (b.avatarUrl.Some? <==> "avatar_url" in user.value.meta)
      && ("avatar_url" in user.value.meta ==> b.avatarUrl == Some(user.value.meta["avatar_url"]))
  {
    match user
    case None => NoUserBadge
    case Some(u) =>
      UserBadge(
        if "avatar_url" in u.meta then Some(u.meta["avatar_url"]) else None,
        DisplayName(u),
        TextOr(u.email, ""),
        MetaOr(u.meta, "job_title", "Usuario"))
  }
}
