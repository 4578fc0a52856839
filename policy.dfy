/**
 * Which requests can end the session. The response interceptor matches URLs by
 * substring; every path the wrappers build is a list of slash-free segments, so
 * a marker "/w/t" occurs in it exactly when a segment w is followed by one that
 * starts with t. Ids rendered from numbers (or null/undefined) are never such a
 * segment, so only the login and identity requests are session URLs.
 */
module Policy {

  import opened Requests
  import Text

  /** A character of a rendered id: a digit, a minus sign, or a letter of "null"/"undefined". */
  predicate PlainChar(c: char) {
    Text.IsDigit(c) || c == '-' || c == 'n' || c == 'u' || c == 'l' || c == 'd' || c == 'e' || c == 'f' || c == 'i'
  }

  /** The text of a rendered id. */
  predicate Plain(x: string) {
    forall i :: 0 <= i < |x| ==> PlainChar(x[i])
  }

  /** A number, `null` or `undefined` renders as plain text. */
  lemma TemplatePlain(v: Value)
    requires !v.Str?
    ensures Plain(Template(v))
  {
    if v.Num? && v.n < 0 {
      var d := Text.NatText(-v.n);
      assert Template(v) == "-" + d;
      assert forall i :: 1 <= i < |Template(v)| ==> Template(v)[i] == d[i - 1];
    }
  }

  /** Plain text is a segment, and neither segment of either marker, nor a start of one. */
  lemma PlainFacts(x: string)
    requires Plain(x)
    ensures Text.Segment(x)
    ensures x != "users" && x != "auth"
    ensures !Text.StartsWith(x, "me") && !Text.StartsWith(x, "token")
  {
    assert |x| >= 1 ==> PlainChar(x[0]);
    assert |x| >= 2 ==> PlainChar(x[1]);
    assert "users"[1] == 's' && "auth"[0] == 'a' && "me"[0] == 'm' && "token"[0] == 't';
  }

  /** The ids a request puts into its path. */
  function Ids(c: Call): seq<Value> {
    match c
    case UserGroups(u) => [u]
    case GetGroup(id) => [id]
    case GetGroupWithMembers(id) => [id]
    case PatchGroup(id, _, _) => [id]
    case DeleteGroup(id) => [id]
    case AddMemberToGroup(g, _) => [g]
    case RemoveMemberFromGroup(g, m) => [g, m]
    case LeaveGroup(g, u) => [g, u]
    case GetMovieDetails(m) => [m]
    case LikeMovie(m) => [m]
    case DislikeMovie(m) => [m]
    case AddToFavorites(m) => [m]
    case UserFavourites(u) => [u]
    case RemoveFavourite(u, m) => [u, m]
    case GetGroupMatches(g) => [g]
    case _ => []
  }

  /**
   * The request's ids are ids whose text is plain (numbers, or strings such as
   * "42" that `leaveGroup` accepts in api.ts), and an encoded search query has
   * no slash (`encodeURIComponent` escapes it).
   */
  predicate WellFormed(c: Call) {
    (forall i :: 0 <= i < |Ids(c)| ==> Plain(Template(Ids(c)[i])))
    && (c.SearchMovies? ==> Text.Segment(c.encodedQuery))
  }

  lemma Join2(a: string, b: string)
    ensures Text.Join([a, b]) == "/" + a + "/" + b
  {
    assert [a, b][1..] == [b];
    assert Text.Join([b]) == "/" + b;
  }

  lemma Join3(a: string, b: string, c: string)
    ensures Text.Join([a, b, c]) == "/" + a + "/" + b + "/" + c
  {
    assert [a, b, c][1..] == [b, c];
    Join2(b, c);
  }

  lemma Join4(a: string, b: string, c: string, d: string)
    ensures Text.Join([a, b, c, d]) == "/" + a + "/" + b + "/" + c + "/" + d
  {
    assert [a, b, c, d][1..] == [b, c, d];
    Join3(b, c, d);
  }

  lemma Adjacent2(a: string, b: string, w: string, t: string)
    ensures Text.HasAdjacent([a, b], w, t) <==> a == w && Text.StartsWith(b, t)
  {
    assert [a, b][1..] == [b];
  }

  lemma Adjacent3(a: string, b: string, c: string, w: string, t: string)
    ensures Text.HasAdjacent([a, b, c], w, t)
        <==> (a == w && Text.StartsWith(b, t)) || (b == w && Text.StartsWith(c, t))
  {
    assert [a, b, c][1..] == [b, c];
    Adjacent2(b, c, w, t);
  }

  lemma Adjacent4(a: string, b: string, c: string, d: string, w: string, t: string)
    ensures Text.HasAdjacent([a, b, c, d], w, t)
        <==> (a == w && Text.StartsWith(b, t)) || (b == w && Text.StartsWith(c, t))
             || (c == w && Text.StartsWith(d, t))
  {
    assert [a, b, c, d][1..] == [b, c, d];
    Adjacent3(b, c, d, w, t);
  }

  /** Ids sit in a path as segments of their own. */
  lemma IdsAreSegments(c: Call)
    requires WellFormed(c)
    ensures forall v :: v in Ids(c) ==> Text.Segment(Template(v))
  {
    forall v | v in Ids(c) ensures Text.Segment(Template(v)) {
      var i :| 0 <= i < |Ids(c)| && Ids(c)[i] == v;
      PlainFacts(Template(v));
    }
  }

  /** A well-formed request's path segments are all slash-free. */
  lemma AllSegments(c: Call)
    requires WellFormed(c)
    ensures forall i :: 0 <= i < |PathSegments(c)| ==> Text.Segment(PathSegments(c)[i])
  {
    IdsAreSegments(c);
    match c
    case UserGroups(u) => assert u in Ids(c);
    case GetGroup(id) => assert id in Ids(c);
    case GetGroupWithMembers(id) => assert id in Ids(c);
    case PatchGroup(id, _, _) => assert id in Ids(c);
    case DeleteGroup(id) => assert id in Ids(c);
    case AddMemberToGroup(g, _) => assert g in Ids(c);
    case RemoveMemberFromGroup(g, m) => assert g in Ids(c) && m in Ids(c);
    case LeaveGroup(g, u) => assert g in Ids(c) && u in Ids(c);
    case GetMovieDetails(m) => assert m in Ids(c);
    case LikeMovie(m) => assert m in Ids(c);
    case DislikeMovie(m) => assert m in Ids(c);
    case AddToFavorites(m) => assert m in Ids(c);
    case UserFavourites(u) => assert u in Ids(c);
    case RemoveFavourite(u, m) => assert u in Ids(c) && m in Ids(c);
    case GetGroupMatches(g) => assert g in Ids(c);
    case SearchMovies(q) =>
      var s := "search?keywords=" + q;
      assert forall j :: 0 <= j < |s| ==> s[j] != '/';
    case _ =>
  }

  /** "/w/t" occurs in a request's path exactly when its segments hold w followed by t…. */
  lemma MarkerInUrl(c: Call, w: string, t: string)
    requires WellFormed(c) && Text.Segment(w) && Text.Segment(t)
    ensures Text.Contains(Url(c), "/" + w + "/" + t) <==> Text.HasAdjacent(PathSegments(c), w, t)
  {
    AllSegments(c);
    Text.MarkerIffAdjacent(PathSegments(c), w, t);
  }

  /** The session markers as segment pairs. */
  lemma MarkersAsSegments()
    ensures "/auth/token" == "/" + "auth" + "/" + "token"
    ensures "/users/me" == "/" + "users" + "/" + "me"
  {
  }

  lemma NoMarkerEntry(c: Call)
    requires WellFormed(c) && (c.Register? || c.Logout? || c.UserGroups? || c.CreateGroup?)
    ensures !Text.HasAdjacent(PathSegments(c), "auth", "token")
    ensures !Text.HasAdjacent(PathSegments(c), "users", "me")
  {
    IdsAreSegments(c);
    match c
    case Register(_, _, _) =>
      Adjacent2("users", "", "auth", "token");
      Adjacent2("users", "", "users", "me");
    case Logout =>
      assert "logout"[..5][0] != "token"[0];
      Adjacent2("auth", "logout", "auth", "token");
      Adjacent2("auth", "logout", "users", "me");
    case UserGroups(u) =>
      assert u in Ids(c); PlainFacts(Template(u));
      Adjacent3("users", Template(u), "groups", "auth", "token");
      Adjacent3("users", Template(u), "groups", "users", "me");
    case CreateGroup(_) =>
      Adjacent2("groups", "", "auth", "token");
      Adjacent2("groups", "", "users", "me");
  }

  lemma NoMarkerGroups(c: Call)
    requires WellFormed(c) && (c.GetGroup? || c.GetGroupWithMembers? || c.PatchGroup? || c.DeleteGroup? || c.AddMemberToGroup? || c.RemoveMemberFromGroup?)
    ensures !Text.HasAdjacent(PathSegments(c), "auth", "token")
    ensures !Text.HasAdjacent(PathSegments(c), "users", "me")
  {
    IdsAreSegments(c);
    match c
    case GetGroup(id) =>
      assert id in Ids(c); PlainFacts(Template(id));
      Adjacent2("groups", Template(id), "auth", "token");
      Adjacent2("groups", Template(id), "users", "me");
    case GetGroupWithMembers(id) =>
      assert id in Ids(c); PlainFacts(Template(id));
      Adjacent2("groups", Template(id), "auth", "token");
      Adjacent2("groups", Template(id), "users", "me");
    case PatchGroup(id, _, _) =>
      assert id in Ids(c); PlainFacts(Template(id));
      Adjacent2("groups", Template(id), "auth", "token");
      Adjacent2("groups", Template(id), "users", "me");
    case DeleteGroup(id) =>
      assert id in Ids(c); PlainFacts(Template(id));
      Adjacent2("groups", Template(id), "auth", "token");
      Adjacent2("groups", Template(id), "users", "me");
    case AddMemberToGroup(g, _) =>
      assert g in Ids(c); PlainFacts(Template(g));
      Adjacent3("groups", Template(g), "members", "auth", "token");
      Adjacent3("groups", Template(g), "members", "users", "me");
    case RemoveMemberFromGroup(g, m) =>
      assert g in Ids(c); PlainFacts(Template(g));
      assert m in Ids(c); PlainFacts(Template(m));
      Adjacent4("groups", Template(g), "members", Template(m), "auth", "token");
      Adjacent4("groups", Template(g), "members", Template(m), "users", "me");
  }

  lemma NoMarkerMovies(c: Call)
    requires WellFormed(c) && (c.SearchMovies? || c.GetMovieDetails? || c.GetRandomMovie? || c.GetGenres? || c.GetWatchProviders? || c.GetPopularWatchProviders? || c.LikeMovie? || c.DislikeMovie? || c.AddToFavorites?)
    ensures !Text.HasAdjacent(PathSegments(c), "auth", "token")
    ensures !Text.HasAdjacent(PathSegments(c), "users", "me")
  {
    IdsAreSegments(c);
    match c
    case SearchMovies(q) =>
      Adjacent2("movies", "search?keywords=" + q, "auth", "token");
      Adjacent2("movies", "search?keywords=" + q, "users", "me");
    case GetMovieDetails(m) =>
      assert m in Ids(c); PlainFacts(Template(m));
      Adjacent2("movies", Template(m), "auth", "token");
      Adjacent2("movies", Template(m), "users", "me");
    case GetRandomMovie =>
      Adjacent2("movies", "random", "auth", "token");
      Adjacent2("movies", "random", "users", "me");
    case GetGenres =>
      Adjacent2("movies", "genres", "auth", "token");
      Adjacent2("movies", "genres", "users", "me");
    case GetWatchProviders =>
      Adjacent2("movies", "watch-providers", "auth", "token");
      Adjacent2("movies", "watch-providers", "users", "me");
    case GetPopularWatchProviders =>
      Adjacent3("movies", "watch-providers", "popular", "auth", "token");
      Adjacent3("movies", "watch-providers", "popular", "users", "me");
    case LikeMovie(m) =>
      assert m in Ids(c); PlainFacts(Template(m));
      Adjacent3("movies", Template(m), "right-swipe", "auth", "token");
      Adjacent3("movies", Template(m), "right-swipe", "users", "me");
    case DislikeMovie(m) =>
      assert m in Ids(c); PlainFacts(Template(m));
      Adjacent3("movies", Template(m), "left-swipe", "auth", "token");
      Adjacent3("movies", Template(m), "left-swipe", "users", "me");
    case AddToFavorites(m) =>
      assert m in Ids(c); PlainFacts(Template(m));
      Adjacent3("movies", Template(m), "right-swipe", "auth", "token");
      Adjacent3("movies", Template(m), "right-swipe", "users", "me");
  }

  lemma NoMarkerUsers(c: Call)
    requires WellFormed(c) && (c.UserFavourites? || c.RemoveFavourite? || c.GetGroupMatches? || c.LeaveGroup?)
    ensures !Text.HasAdjacent(PathSegments(c), "auth", "token")
    ensures !Text.HasAdjacent(PathSegments(c), "users", "me")
  {
    IdsAreSegments(c);
    match c
    case UserFavourites(u) =>
      assert u in Ids(c); PlainFacts(Template(u));
      Adjacent3("users", Template(u), "favourites", "auth", "token");
      Adjacent3("users", Template(u), "favourites", "users", "me");
    case RemoveFavourite(u, m) =>
      assert u in Ids(c); PlainFacts(Template(u));
      assert m in Ids(c); PlainFacts(Template(m));
      Adjacent4("users", Template(u), "favourites", Template(m), "auth", "token");
      Adjacent4("users", Template(u), "favourites", Template(m), "users", "me");
    case GetGroupMatches(g) =>
      assert g in Ids(c); PlainFacts(Template(g));
      Adjacent3("groups", Template(g), "matches", "auth", "token");
      Adjacent3("groups", Template(g), "matches", "users", "me");
    case LeaveGroup(g, u) =>
      assert g in Ids(c); PlainFacts(Template(g));
      assert u in Ids(c); PlainFacts(Template(u));
      Adjacent4("groups", Template(g), "members", Template(u), "auth", "token");
      Adjacent4("groups", Template(g), "members", Template(u), "users", "me");
  }

  /**
   * Exactly the credential-issuing request (login) and the identity request
   * (`/users/me`) have session URLs; a 401 from any other request of the layer
   * leaves the session alone, provided its ids render as plain text.
   */
  lemma SessionUrls(c: Call)
    requires WellFormed(c)
    ensures IsSessionUrl(Url(c)) <==> c.Login? || c.GetProfile?
  {
    MarkersAsSegments();
    MarkerInUrl(c, "auth", "token");
    MarkerInUrl(c, "users", "me");
    match c
    case Login(_, _) => Adjacent3("auth", "token", "", "auth", "token");
    case GetProfile => Adjacent2("users", "me", "users", "me");
    case Register(_, _, _) => NoMarkerEntry(c);
    case Logout => NoMarkerEntry(c);
    case UserGroups(_) => NoMarkerEntry(c);
    case CreateGroup(_) => NoMarkerEntry(c);
    case GetGroup(_) => NoMarkerGroups(c);
    case GetGroupWithMembers(_) => NoMarkerGroups(c);
    case PatchGroup(_, _, _) => NoMarkerGroups(c);
    case DeleteGroup(_) => NoMarkerGroups(c);
    case AddMemberToGroup(_, _) => NoMarkerGroups(c);
    case RemoveMemberFromGroup(_, _) => NoMarkerGroups(c);
    case UserFavourites(_) => NoMarkerUsers(c);
    case RemoveFavourite(_, _) => NoMarkerUsers(c);
    case GetGroupMatches(_) => NoMarkerUsers(c);
    case LeaveGroup(_, _) => NoMarkerUsers(c);
    case _ => NoMarkerMovies(c);
  }

  /**
   * The substring test reaches further when `leaveGroup` is passed a string id
   * that does not render plainly: leaving group "users" as user 7 targets
   * "/groups/users/members/7", which contains "/users/me", so a 401 there ends
   * the session.
   */
  lemma StringGroupIdEndsSession()
    ensures IsSessionUrl(Url(LeaveGroup(Str("users"), Num(7))))
  {
    var segs := PathSegments(LeaveGroup(Str("users"), Num(7)));
    assert segs == ["groups", "users", "members", "7"];
    Adjacent4("groups", "users", "members", "7", "users", "me");
    MarkersAsSegments();
    Text.MarkerIffAdjacent(segs, "users", "me");
  }

  /** A string id that reads as a number, as a route parameter gives it, keeps the session. */
  lemma StringNumeralGroupIdKeepsSession()
    ensures !IsSessionUrl(Url(LeaveGroup(Str("42"), Num(7))))
  {
    var c := LeaveGroup(Str("42"), Num(7));
    assert Plain(Template(Str("42")));
    TemplatePlain(Num(7));
    SessionUrls(c);
  }
}
