/**
 * The friends map page: a pin for the viewer, a pin for every friend who
 * shares a position, and a sidebar card for every friend.
 */
module MapView {
  import opened Wrappers
  import opened Profiles
  import opened Sequences
  import Nearby

  /** A friend's pin: keyed by the friend's id, at the friend's position, with a popup. */
  datatype Marker = Marker(key: Id, latitude: real, longitude: real, username: string, avatarFallback: Option<string>)

  /** A sidebar card: avatar, name, and whether a location is shared. */
  datatype Card = Card(key: Id, username: string, avatarFallback: Option<string>, status: string)

  /**
   * What `MapPage` renders: the spinner while loading, the map with its
   * sidebar, or nothing at all because rendering threw (an avatar fallback
   * of an empty username).
   */
  datatype View =
    | Spinner
    | Crashed
    | MapWithSidebar(you: Option<(real, real)>, markers: seq<Marker>, cards: seq<Card>)

  const LocationShared := "Location shared"
  const LocationNotShared := "Location not shared"

  /** The "You are here" pin: shown at the viewer's position when it is known. */
  function ViewerMarker(userProfile: Option<Profile>): (pos: Option<(real, real)>)
    ensures pos.Some? <==> ViewerLocated(userProfile)
    ensures pos.Some? ==> pos.value.0 != 0.0 && pos.value.1 != 0.0
    ensures pos.Some? ==>
      userProfile.value.latitude == Some(pos.value.0) && userProfile.value.longitude == Some(pos.value.1)
  {
    if userProfile.Some? && Truthy(userProfile.value.latitude) && Truthy(userProfile.value.longitude)
    then Some((userProfile.value.latitude.value, userProfile.value.longitude.value))
    else None
  }

  function FriendMarker(f: Profile): Marker
    requires HasLocation(f)
  {
    Marker(f.id, f.latitude.value, f.longitude.value, f.username, AvatarFallback(f.username))
  }

  /**
   * `friends.map(friend => friend.latitude && friend.longitude && <Marker/>)`:
   * a falsy entry renders nothing, so the pins are those of the located
   * friends, one each, in roster order.
   */
  function FriendMarkers(fs: seq<Profile>): (ms: seq<Marker>)
    ensures |ms| == |Located(fs)|
    ensures forall i :: 0 <= i < |ms| ==> ms[i] == FriendMarker(Located(fs)[i])
  {
    if fs == [] then []
    else
      var rest := FriendMarkers(fs[1..]);
      assert fs == [fs[0]] + fs[1..];
      LocatedCons(fs[0], fs[1..]);
      if HasLocation(fs[0]) then [FriendMarker(fs[0])] + rest else rest
  }

  /** The status line of a friend's card. */
  function LocationLabel(f: Profile): (s: string)
    ensures s == LocationShared <==> HasLocation(f)
    ensures s == LocationShared || s == LocationNotShared
  {
    if Truthy(f.latitude) && Truthy(f.longitude) then LocationShared else LocationNotShared
  }

  function CardOf(f: Profile): Card
  {
    Card(f.id, f.username, AvatarFallback(f.username), LocationLabel(f))
  }

  /** `friends.map(friend => <Card/>)`: one card per friend, whatever its location state. */
  function Sidebar(fs: seq<Profile>): (cards: seq<Card>)
    ensures |cards| == |fs|
    ensures forall i :: 0 <= i < |fs| ==> cards[i].key == fs[i].id && cards[i].username == fs[i].username
    ensures forall i :: 0 <= i < |fs| ==> (cards[i].status == LocationShared <==> HasLocation(fs[i]))
    ensures forall i :: 0 <= i < |fs| ==> cards[i] == CardOf(fs[i])
  {
    if fs == [] then [] else [CardOf(fs[0])] + Sidebar(fs[1..])
  }

  function MarkerKeys(ms: seq<Marker>): seq<Id>
  {
    Map((m: Marker) => m.key, ms)
  }

  /** The keys of the cards that say "Location shared", in sidebar order. */
  function SharedKeys(cards: seq<Card>): seq<Id>
  {
    if cards == [] then []
    else (if cards[0].status == LocationShared then [cards[0].key] else []) + SharedKeys(cards[1..])
  }

  /** The pins are keyed by the identities of the located friends, in roster order. */
  lemma MarkerKeysAreLocatedIds(fs: seq<Profile>)
    ensures MarkerKeys(FriendMarkers(fs)) == Ids(Located(fs))
  {
  }

  lemma SharedKeysCons(c: Card, cards: seq<Card>)
    ensures SharedKeys([c] + cards)
         == (if c.status == LocationShared then [c.key] else []) + SharedKeys(cards)
  {
    assert ([c] + cards)[1..] == cards;
  }

  lemma SidebarCons(fs: seq<Profile>)
    requires fs != []
    ensures Sidebar(fs) == [CardOf(fs[0])] + Sidebar(fs[1..])
  {
  }

  lemma LocatedIdsCons(fs: seq<Profile>)
    requires fs != []
    ensures Ids(Located(fs)) == (if HasLocation(fs[0]) then [fs[0].id] else []) + Ids(Located(fs[1..]))
  {
    assert fs == [fs[0]] + fs[1..];
    var head := if HasLocation(fs[0]) then [fs[0]] else [];
    LocatedCons(fs[0], fs[1..]);
    MapAppend((p: Profile) => p.id, head, Located(fs[1..]));
    assert Ids(head) == if HasLocation(fs[0]) then [fs[0].id] else [];
  }

  /** The cards that say "Location shared" are those of the located friends, in roster order. */
  lemma {:induction false} SharedKeysAreLocatedIds(fs: seq<Profile>)
    ensures SharedKeys(Sidebar(fs)) == Ids(Located(fs))
  {
    if fs != [] {
      SharedKeysAreLocatedIds(fs[1..]);
      SidebarCons(fs);
      SharedKeysCons(CardOf(fs[0]), Sidebar(fs[1..]));
      LocatedIdsCons(fs);
    }
  }

  /**
   * The sidebar's "Location shared" cards and the map's friend pins are the
   * same friends in the same order.
   */
  lemma LabelsAgreeWithMarkers(fs: seq<Profile>)
    ensures SharedKeys(Sidebar(fs)) == MarkerKeys(FriendMarkers(fs))
  {
    SharedKeysAreLocatedIds(fs);
    MarkerKeysAreLocatedIds(fs);
  }

  /**
   * The nearby page ranks exactly the friends that get a pin here: the same
   * identities, as often, when both pages see the same roster.
   */
  lemma NearbyRanksThePinnedFriends(vlat: real, vlon: real, fs: seq<Profile>, dist: Nearby.Distance)
    ensures multiset(Ids(Nearby.ProfilesOf(Nearby.Rank(vlat, vlon, fs, dist))))
         == multiset(MarkerKeys(FriendMarkers(fs)))
  {
    var ranked := Nearby.ProfilesOf(Nearby.Rank(vlat, vlon, fs, dist));
    var located := Located(fs);
    LocatedCount(fs);
    assert multiset(ranked) == multiset(located);
    MapPermutation((p: Profile) => p.id, ranked, located);
    MarkerKeysAreLocatedIds(fs);
  }

  /** Some friend's avatar fallback `username[0].toUpperCase()` throws. */
  predicate SomeUsernameEmpty(fs: seq<Profile>)
  {
    exists i :: 0 <= i < |fs| && AvatarFallback(fs[i].username).None?
  }

  /**
   * The JSX tree around the sidebar evaluates every friend's avatar
   * fallback, so an empty username anywhere in the roster makes the render
   * throw; otherwise every card and pin has its letter.
   */
  function RenderMap(userProfile: Option<Profile>, friends: seq<Profile>): (v: View)
    ensures v.Crashed? || v.MapWithSidebar?
    ensures v.Crashed? <==> exists i :: 0 <= i < |friends| && |friends[i].username| == 0
    ensures v.MapWithSidebar? ==>
      v.you == ViewerMarker(userProfile) && v.markers == FriendMarkers(friends) && v.cards == Sidebar(friends)
    ensures v.MapWithSidebar? ==> forall i :: 0 <= i < |v.cards| ==> v.cards[i].avatarFallback.Some?
    ensures v.MapWithSidebar? ==> forall i :: 0 <= i < |v.markers| ==> v.markers[i].avatarFallback.Some?
  {
    if SomeUsernameEmpty(friends) then Crashed
    else
      var markers := FriendMarkers(friends);
      assert forall i :: 0 <= i < |markers| ==> Located(friends)[i] in friends by {
        LocatedMembers(friends);
      }
      MapWithSidebar(ViewerMarker(userProfile), markers, Sidebar(friends))
  }

  /**
   * Both pages throw on an empty username, and the nearby page lists only
   * friends from the roster, so for the same roster the nearby page fails
   * to render only when the map page does too.
   */
  lemma NearbyCrashesOnlyWithMap(userProfile: Option<Profile>, vlat: real, vlon: real, fs: seq<Profile>, dist: Nearby.Distance)
    ensures Nearby.ShowNearby(false, Nearby.Rank(vlat, vlon, fs, dist)).Crashed? ==>
      RenderMap(userProfile, fs).Crashed?
  {
    var r := Nearby.Rank(vlat, vlon, fs, dist);
    if Nearby.ShowNearby(false, r).Crashed? {
      var i :| 0 <= i < |r| && |r[i].profile.username| == 0;
      var p := r[i].profile;
      assert Nearby.ProfilesOf(r)[i] == p;
      assert multiset(Nearby.ProfilesOf(r))[p] > 0;
      assert p in multiset(fs);
      var j :| 0 <= j < |fs| && fs[j] == p;
      assert |fs[j].username| == 0;
    }
  }

  /** The page state of `MapPage`. */
  class MapPage {
    var friends: seq<Profile>
    var userProfile: Option<Profile>
    var loading: bool

    constructor ()
      ensures friends == [] && userProfile == None && loading
    {
      friends := [];
      userProfile := None;
      loading := true;
    }

    /**
     * `fetchData`, with the backing-store answers as parameters, as for the
     * nearby page: `None` is a query whose `data` is null.
     */
    method FetchData(
      user: Option<Id>,
      profileOf: Id -> Option<Profile>,
      acceptedConnectionsOf: Id -> Option<seq<Connection>>,
      profilesIn: seq<Id> -> Option<seq<Profile>>)
      modifies this
      // No authenticated user: return before `setLoading(false)`.
      ensures user.None? ==>
        friends == old(friends) && userProfile == old(userProfile) && loading == old(loading)
      ensures user.Some? ==> !loading
      ensures user.Some? ==>
        userProfile == if profileOf(user.value).Some? then profileOf(user.value) else old(userProfile)
      ensures user.Some? ==>
        var connections := acceptedConnectionsOf(user.value);
        var profiles := if connections.Some? then profilesIn(FriendIds(connections.value)) else None;
        friends == if profiles.Some? then profiles.value else old(friends)
    {
      if user.None? {
        return;
      }
      var profile := profileOf(user.value);
      if profile.Some? {
        userProfile := profile;
      }
      var connections := acceptedConnectionsOf(user.value);
      if connections.Some? {
        var friendIds := FriendIds(connections.value);
        var friendProfiles := profilesIn(friendIds);
        if friendProfiles.Some? {
          friends := friendProfiles.value;
        }
      }
      loading := false;
    }

    /** What the page shows for its current state (map/page.tsx:78-173). */
    function Render(): (v: View)
      reads this
      ensures v.Spinner? <==> loading
      ensures !loading ==> v == RenderMap(userProfile, friends)
    {
      if loading then Spinner else RenderMap(userProfile, friends)
    }
  }

  /**
   * The page once its mount effect has run: a fresh page, then one
   * `fetchData`, then a render.
   */
  method Mount(
    user: Option<Id>,
    profileOf: Id -> Option<Profile>,
    acceptedConnectionsOf: Id -> Option<seq<Connection>>,
    profilesIn: seq<Id> -> Option<seq<Profile>>)
    returns (view: View)
    // No authenticated user: the spinner stays.
    ensures view.Spinner? <==> user.None?
    ensures user.Some? ==>
      var connections := acceptedConnectionsOf(user.value);
      var profiles := if connections.Some? then profilesIn(FriendIds(connections.value)) else None;
      var roster := if profiles.Some? then profiles.value else [];
      (view.Crashed? <==> exists i :: 0 <= i < |roster| && |roster[i].username| == 0) &&
      (view.MapWithSidebar? ==>
        view.you == ViewerMarker(profileOf(user.value)) &&
        view.markers == FriendMarkers(roster) && view.cards == Sidebar(roster) &&
        SharedKeys(view.cards) == MarkerKeys(view.markers))
  {
    var page := new MapPage();
    page.FetchData(user, profileOf, acceptedConnectionsOf, profilesIn);
    view := page.Render();
    LabelsAgreeWithMarkers(page.friends);
  }
}
