/**
 * The nearby-friends page: the viewer's accepted friends that share a
 * position, each with its distance from the viewer, nearest first.
 */
module Nearby {
  import opened Wrappers
  import opened Profiles
  import opened Sequences

  /**
   * `calculateDistance(lat1, lon1, lat2, lon2)`, in kilometres. The haversine
   * arithmetic is not modelled: everything below holds for every distance
   * function, which is passed in.
   */
  type Distance = (real, real, real, real) -> real

  /** `Profile & { distance: number }`: a friend's profile with its distance attached. */
  datatype RankedFriend = RankedFriend(profile: Profile, distance: real)

  /** The distance from the viewer at (vlat, vlon) to a located friend. */
  function DistanceTo(vlat: real, vlon: real, f: Profile, dist: Distance): real
    requires HasLocation(f)
  {
    dist(vlat, vlon, f.latitude.value, f.longitude.value)
  }

  /** The profiles of ranked entries, with the distance dropped. */
  function ProfilesOf(s: seq<RankedFriend>): seq<Profile>
  {
    Map((x: RankedFriend) => x.profile, s)
  }

  /** The `.map(friend => ({...friend, distance: ...}))` step over located friends. */
  function WithDistances(vlat: real, vlon: real, fs: seq<Profile>, dist: Distance): (r: seq<RankedFriend>)
    requires forall p :: p in fs ==> HasLocation(p)
    ensures ProfilesOf(r) == fs
    ensures forall i :: 0 <= i < |r| ==> r[i].distance == DistanceTo(vlat, vlon, fs[i], dist)
  {
    seq(|fs|, i requires 0 <= i < |fs| => RankedFriend(fs[i], DistanceTo(vlat, vlon, fs[i], dist)))
  }

  /** Non-decreasing distance, the order `(a, b) => a.distance - b.distance` asks for. */
  predicate SortedByDistance(s: seq<RankedFriend>)
  {
    forall i, j :: 0 <= i < j < |s| ==> s[i].distance <= s[j].distance
  }

  /** The entries of `s` at distance exactly `d`, in their order in `s`. */
  function AtDistance(s: seq<RankedFriend>, d: real): (r: seq<RankedFriend>)
    ensures forall y :: y in r <==> y in s && y.distance == d
  {
    if s == [] then []
    else (if s[0].distance == d then [s[0]] else []) + AtDistance(s[1..], d)
  }

  /**
   * Inserts `x` before the first entry that is not nearer than it: an entry
   * that comes earlier in the input stays ahead of the ones it ties with.
   */
  function Insert(x: RankedFriend, s: seq<RankedFriend>): (r: seq<RankedFriend>)
    ensures multiset(r) == multiset{x} + multiset(s)
  {
    if s == [] then [x]
    else if x.distance <= s[0].distance then [x] + s
    else
      assert s == [s[0]] + s[1..];
      [s[0]] + Insert(x, s[1..])
  }

  lemma SortedCons(h: RankedFriend, t: seq<RankedFriend>)
    requires SortedByDistance(t)
    requires forall k :: 0 <= k < |t| ==> h.distance <= t[k].distance
    ensures SortedByDistance([h] + t)
  {
  }

  /** Inserting into a sorted list keeps it sorted. */
  lemma {:induction false} InsertSorted(x: RankedFriend, s: seq<RankedFriend>)
    requires SortedByDistance(s)
    ensures SortedByDistance(Insert(x, s))
  {
    if s != [] && x.distance > s[0].distance {
      var rest := Insert(x, s[1..]);
      InsertSorted(x, s[1..]);
      forall k | 0 <= k < |rest| ensures s[0].distance <= rest[k].distance {
        var e := rest[k];
        assert e in multiset(rest);
        if e != x {
          assert e in s[1..];
          var j :| 0 <= j < |s[1..]| && s[1..][j] == e;
          assert s[j + 1] == e;
        }
      }
      SortedCons(s[0], rest);
      assert Insert(x, s) == [s[0]] + rest;
    }
  }

  /**
   * `Array.prototype.sort` with the comparator `a.distance - b.distance`,
   * which is stable: a stable insertion sort.
   */
  function SortByDistance(s: seq<RankedFriend>): (r: seq<RankedFriend>)
    ensures SortedByDistance(r)
    ensures multiset(r) == multiset(s)
  {
    if s == [] then []
    else
      assert s == [s[0]] + s[1..];
      InsertSorted(s[0], SortByDistance(s[1..]));
      Insert(s[0], SortByDistance(s[1..]))
  }

  /**
   * The ranking for a viewer at (vlat, vlon): filter to located friends,
   * attach distances, sort nearest first.
   */
  function Rank(vlat: real, vlon: real, friends: seq<Profile>, dist: Distance): (r: seq<RankedFriend>)
    ensures SortedByDistance(r)
    ensures forall i :: 0 <= i < |r| ==> HasLocation(r[i].profile)
    ensures forall i :: 0 <= i < |r| ==>
      r[i].distance == DistanceTo(vlat, vlon, r[i].profile, dist)
    ensures forall p :: multiset(ProfilesOf(r))[p] == if HasLocation(p) then multiset(friends)[p] else 0
  {
    var located := Located(friends);
    var attached := WithDistances(vlat, vlon, located, dist);
    var r := SortByDistance(attached);
    LocatedCount(friends);
    assert forall i :: 0 <= i < |r| ==> r[i] in multiset(attached);
    MapPermutation((x: RankedFriend) => x.profile, r, attached);
    r
  }

  lemma AtDistanceCons(y: RankedFriend, t: seq<RankedFriend>, d: real)
    ensures AtDistance([y] + t, d) == (if y.distance == d then [y] else []) + AtDistance(t, d)
  {
    assert ([y] + t)[1..] == t;
  }

  /** Inserting `x` puts it ahead of every entry it ties with. */
  lemma {:induction false} InsertAtDistance(x: RankedFriend, s: seq<RankedFriend>, d: real)
    ensures AtDistance(Insert(x, s), d) == (if x.distance == d then [x] else []) + AtDistance(s, d)
  {
    if s == [] {
      AtDistanceCons(x, [], d);
    } else if x.distance <= s[0].distance {
      AtDistanceCons(x, s, d);
    } else {
      var rest := Insert(x, s[1..]);
      InsertAtDistance(x, s[1..], d);
      AtDistanceCons(s[0], rest, d);
      AtDistanceCons(s[0], s[1..], d);
      assert s == [s[0]] + s[1..];
      if x.distance == d {
        assert s[0].distance != d;
      } else {
        assert AtDistance(rest, d) == AtDistance(s[1..], d);
      }
    }
  }

  /** The sort is stable: at every distance, the tied entries keep their input order. */
  lemma {:induction false} SortIsStable(s: seq<RankedFriend>, d: real)
    ensures AtDistance(SortByDistance(s), d) == AtDistance(s, d)
  {
    if s != [] {
      SortIsStable(s[1..], d);
      InsertAtDistance(s[0], SortByDistance(s[1..]), d);
    }
  }

  lemma FirstAtItsDistance(s: seq<RankedFriend>)
    requires s != []
    ensures AtDistance(s, s[0].distance) == [s[0]] + AtDistance(s[1..], s[0].distance)
  {
  }

  /**
   * A sorted order that keeps the tied entries of each distance in the same
   * order is unique: any stable sort by distance gives the same list.
   */
  lemma {:induction false} StableSortUnique(a: seq<RankedFriend>, b: seq<RankedFriend>)
    requires SortedByDistance(a) && SortedByDistance(b)
    requires forall d :: AtDistance(a, d) == AtDistance(b, d)
    ensures a == b
    decreases |a|
  {
    if a == [] && b == [] {
    } else if a == [] || b == [] {
      var c := if a != [] then a else b;
      FirstAtItsDistance(c);
      assert false;
    } else {
      var d := a[0].distance;
      assert d <= b[0].distance by {
        FirstAtItsDistance(b);
        assert b[0] in AtDistance(a, b[0].distance);
      }
      assert b[0].distance <= d by {
        FirstAtItsDistance(a);
        assert a[0] in AtDistance(b, d);
      }
      FirstAtItsDistance(a);
      FirstAtItsDistance(b);
      assert b[0].distance == d;
      assert AtDistance(a, d)[0] == a[0];
      assert AtDistance(b, d)[0] == b[0];
      assert AtDistance(a[1..], d) == AtDistance(b[1..], d) by {
        assert AtDistance(a[1..], d) == AtDistance(a, d)[1..];
        assert AtDistance(b[1..], d) == AtDistance(b, d)[1..];
      }
      forall e ensures AtDistance(a[1..], e) == AtDistance(b[1..], e) {
        if e != d {
          assert AtDistance(a, e) == AtDistance(a[1..], e);
          assert AtDistance(b, e) == AtDistance(b[1..], e);
        }
      }
      StableSortUnique(a[1..], b[1..]);
      assert a == [a[0]] + a[1..];
      assert b == [b[0]] + b[1..];
    }
  }

  /** The ranking keeps, at every distance, the order the friends came in. */
  lemma RankIsStable(vlat: real, vlon: real, friends: seq<Profile>, dist: Distance, d: real)
    ensures AtDistance(Rank(vlat, vlon, friends, dist), d)
         == AtDistance(WithDistances(vlat, vlon, Located(friends), dist), d)
  {
    SortIsStable(WithDistances(vlat, vlon, Located(friends), dist), d);
  }

  /**
   * The ranking is determined by what the page asks of it: any list that is
   * sorted by distance and keeps ties in input order is the ranking.
   */
  lemma RankIsTheStableSort(vlat: real, vlon: real, friends: seq<Profile>, dist: Distance, t: seq<RankedFriend>)
    requires SortedByDistance(t)
    requires forall d :: AtDistance(t, d) == AtDistance(WithDistances(vlat, vlon, Located(friends), dist), d)
    ensures t == Rank(vlat, vlon, friends, dist)
  {
    forall d ensures AtDistance(t, d) == AtDistance(Rank(vlat, vlon, friends, dist), d) {
      RankIsStable(vlat, vlon, friends, dist, d);
    }
    StableSortUnique(t, Rank(vlat, vlon, friends, dist));
  }

  /**
   * Friend A with a position, B without, C with a position farther than A's:
   * the ranking is A then C.
   */
  lemma RankSkipsUnlocated(vlat: real, vlon: real, a: Profile, b: Profile, c: Profile, dist: Distance)
    requires HasLocation(a) && !HasLocation(b) && HasLocation(c)
    requires DistanceTo(vlat, vlon, a, dist) < DistanceTo(vlat, vlon, c, dist)
    ensures ProfilesOf(Rank(vlat, vlon, [a, b, c], dist)) == [a, c]
  {
    LocatedCons(c, []);
    LocatedCons(b, [c]);
    LocatedCons(a, [b, c]);
    assert Located([a, b, c]) == [a, c];
    var attached := WithDistances(vlat, vlon, [a, c], dist);
    assert attached[1..] == [attached[1]];
    assert SortByDistance(attached) == attached;
  }

  /**
   * What the nearby page shows: the spinner, the "No friends nearby at the
   * moment" card, the ranked list, or nothing at all because the list's
   * avatar fallback `username[0].toUpperCase()` threw on an empty username.
   */
  datatype Screen = Loading | NoFriendsNearby | Crashed | FriendList(entries: seq<RankedFriend>)

  function ShowNearby(loading: bool, nearbyFriends: seq<RankedFriend>): (v: Screen)
    ensures v.Loading? <==> loading
    ensures v.NoFriendsNearby? <==> !loading && nearbyFriends == []
    ensures v.Crashed? <==> !loading && exists i :: 0 <= i < |nearbyFriends| && |nearbyFriends[i].profile.username| == 0
    ensures v.FriendList? ==> v.entries == nearbyFriends && nearbyFriends != []
    ensures v.FriendList? ==>
      forall i :: 0 <= i < |v.entries| ==> AvatarFallback(v.entries[i].profile.username).Some?
  {
    if loading then Loading
    else if nearbyFriends == [] then NoFriendsNearby
    else if exists i :: 0 <= i < |nearbyFriends| && |nearbyFriends[i].profile.username| == 0 then Crashed
    else FriendList(nearbyFriends)
  }

  /**
   * The page state of `NearbyFriendsPage`: the ranked list it shows and
   * whether the spinner is still up.
   */
  class NearbyFriendsPage {
    var nearbyFriends: seq<RankedFriend>
    var loading: bool

    constructor ()
      ensures nearbyFriends == [] && loading
    {
      nearbyFriends := [];
      loading := true;
    }

    /**
     * `fetchNearbyFriends`. The backing-store answers are parameters: `user`
     * is the authenticated user, if any; `profileOf(id)` the single profile
     * row for an identity; `acceptedConnectionsOf(id)` the rows of that
     * user's accepted connections; `profilesIn(ids)` the profile rows whose
     * identity is in `ids`. `None` is a query whose `data` is null.
     */
    method FetchNearbyFriends(
      user: Option<Id>,
      profileOf: Id -> Option<Profile>,
      acceptedConnectionsOf: Id -> Option<seq<Connection>>,
      profilesIn: seq<Id> -> Option<seq<Profile>>,
      dist: Distance)
      modifies this
      // No authenticated user: return before clearing `loading`.
      ensures user.None? ==> loading == old(loading) && nearbyFriends == old(nearbyFriends)
      ensures user.Some? ==> !loading
      // The viewer's own position is unknown (no profile, or a null or 0 coordinate).
      ensures user.Some? && !ViewerLocated(profileOf(user.value)) ==> nearbyFriends == old(nearbyFriends)
      ensures user.Some? && ViewerLocated(profileOf(user.value)) ==>
        var viewer := profileOf(user.value).value;
        var connections := acceptedConnectionsOf(user.value);
        var profiles := if connections.Some? then profilesIn(FriendIds(connections.value)) else None;
        nearbyFriends == if profiles.Some?
          then Rank(viewer.latitude.value, viewer.longitude.value, profiles.value, dist)
          else old(nearbyFriends)
    {
      if user.None? {
        return;
      }
      var userProfile := profileOf(user.value);
      if userProfile.None?
        || !Truthy(userProfile.value.latitude) || !Truthy(userProfile.value.longitude)
      {
        loading := false;
        return;
      }
      var connections := acceptedConnectionsOf(user.value);
      if connections.Some? {
        var friendIds := FriendIds(connections.value);
        var friendProfiles := profilesIn(friendIds);
        if friendProfiles.Some? {
          var viewer := userProfile.value;
          nearbyFriends := Rank(viewer.latitude.value, viewer.longitude.value, friendProfiles.value, dist);
        }
      }
      loading := false;
    }
  }

  /**
   * The page as it stands once its mount effect has run: a fresh page, then
   * one `fetchNearbyFriends`. Returns the list, whether the spinner is
   * still up, and what the page renders from them.
   */
  method Mount(
    user: Option<Id>,
    profileOf: Id -> Option<Profile>,
    acceptedConnectionsOf: Id -> Option<seq<Connection>>,
    profilesIn: seq<Id> -> Option<seq<Profile>>,
    dist: Distance)
    returns (shown: seq<RankedFriend>, spinner: bool, screen: Screen)
    ensures spinner <==> user.None?
    ensures screen == ShowNearby(spinner, shown)
    ensures user.None? || !ViewerLocated(profileOf(user.value)) ==> shown == []
    ensures forall i :: 0 <= i < |shown| ==> HasLocation(shown[i].profile)
    ensures SortedByDistance(shown)
    ensures user.Some? && ViewerLocated(profileOf(user.value)) ==>
      var viewer := profileOf(user.value).value;
      var connections := acceptedConnectionsOf(user.value);
      var profiles := if connections.Some? then profilesIn(FriendIds(connections.value)) else None;
      shown == if profiles.Some?
        then Rank(viewer.latitude.value, viewer.longitude.value, profiles.value, dist)
        else []
  {
    var page := new NearbyFriendsPage();
    page.FetchNearbyFriends(user, profileOf, acceptedConnectionsOf, profilesIn, dist);
    shown, spinner := page.nearbyFriends, page.loading;
    screen := ShowNearby(spinner, shown);
  }
}
