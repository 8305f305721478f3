/** The page title of src/layouts/MainLayout.tsx, handed as it is to the
    top bar's `title` prop. */
module MainLayout {
  import Paths

  /** `location.pathname.split('/')[1] || 'Dashboard'`. */
  function Title(pathname: string): string {
    Paths.SegmentOr(pathname, "Dashboard")
  }

  /** The title is the first segment of an absolute pathname, nested
      paths included, and 'Dashboard' when that segment is empty. */
  lemma TitleIsFirstSegment(seg: string, rest: string)
    requires '/' !in seg
    requires rest == "" || rest[0] == '/'
    ensures Title("/" + seg + rest) == if seg == "" then "Dashboard" else seg
  {
    Paths.SegmentOfAbsolutePath(seg, rest, "Dashboard");
  }

  /** `/`, the empty pathname and a pathname without `/` give 'Dashboard'. */
  lemma TitleFallback(pathname: string)
    requires pathname == "/" || '/' !in pathname
    ensures Title(pathname) == "Dashboard"
  {
    if pathname == "/" {
      Paths.RootGivesFallback("Dashboard");
    } else {
      Paths.NoSlashNoSegment(pathname);
    }
  }

  /** The title is never empty. */
  lemma TitleNonEmpty(pathname: string)
    ensures Title(pathname) != ""
  {
  }
}
