/**
 * The records the dashboard pages work on (the `Profile` and `Connection` row
 * types of the backing store) and the "location known" test that the nearby
 * page and the map page share.
 */
module Profiles {
  import opened Wrappers
  import opened Sequences

  /** Row identities are opaque strings (UUIDs in the store). */
  type Id = string

  /** A row of the `profiles` table; nullable columns are options. */
  datatype Profile = Profile(
    id: Id,
    username: string,
    fullName: Option<string>,
    avatarUrl: Option<string>,
    latitude: Option<real>,
    longitude: Option<real>,
    lastLocationUpdate: string)

  datatype ConnectionStatus = Pending | Accepted

  /** A row of the `connections` table: a directed edge from `userId` to `friendId`. */
  datatype Connection = Connection(
    id: Id,
    userId: Id,
    friendId: Id,
    status: ConnectionStatus,
    createdAt: string,
    updatedAt: string)

  /**
   * JavaScript truthiness of a nullable number: `null` is falsy and so is a
   * coordinate of exactly 0, which is therefore treated as "not shared".
   */
  predicate Truthy(x: Option<real>)
  {
    x.Some? && x.value != 0.0
  }

  /** `p.latitude && p.longitude`: the profile has a usable position. */
  predicate HasLocation(p: Profile)
  {
    Truthy(p.latitude) && Truthy(p.longitude)
  }

  /** `userProfile?.latitude && userProfile?.longitude` for a profile that may be missing. */
  predicate ViewerLocated(p: Option<Profile>)
  {
    p.Some? && HasLocation(p.value)
  }

  /** `connections.map(c => c.friend_id)`. */
  function FriendIds(cs: seq<Connection>): (ids: seq<Id>)
    ensures |ids| == |cs|
    ensures forall i :: 0 <= i < |cs| ==> ids[i] == cs[i].friendId
  {
    if cs == [] then [] else [cs[0].friendId] + FriendIds(cs[1..])
  }

  /** The identities of a list of profiles, in order. */
  function Ids(ps: seq<Profile>): seq<Id>
  {
    Map((p: Profile) => p.id, ps)
  }

  /** `friends.filter(friend => friend.latitude && friend.longitude)`. */
  function Located(fs: seq<Profile>): (r: seq<Profile>)
    ensures forall p :: p in r ==> HasLocation(p)
  {
    if fs == [] then []
    else (if HasLocation(fs[0]) then [fs[0]] else []) + Located(fs[1..])
  }

  /** Every located friend comes from the roster. */
  lemma {:induction false} LocatedMembers(fs: seq<Profile>)
    ensures forall p :: p in Located(fs) ==> p in fs
  {
    if fs != [] {
      LocatedMembers(fs[1..]);
      assert fs == [fs[0]] + fs[1..];
    }
  }

  lemma LocatedCons(f: Profile, fs: seq<Profile>)
    ensures Located([f] + fs) == (if HasLocation(f) then [f] else []) + Located(fs)
  {
    assert ([f] + fs)[1..] == fs;
  }

  /** The filter keeps every located friend as often as it occurs, and nothing else. */
  lemma {:induction false} LocatedCount(fs: seq<Profile>)
    ensures forall p :: multiset(Located(fs))[p] == if HasLocation(p) then multiset(fs)[p] else 0
  {
    if fs != [] {
      LocatedCount(fs[1..]);
      assert fs == [fs[0]] + fs[1..];
      LocatedCons(fs[0], fs[1..]);
    }
  }

  /** The filter keeps the input order: it distributes over concatenation. */
  lemma {:induction false} LocatedAppend(a: seq<Profile>, b: seq<Profile>)
    ensures Located(a + b) == Located(a) + Located(b)
  {
    if a != [] {
      LocatedAppend(a[1..], b);
      assert a + b == [a[0]] + (a[1..] + b);
      assert a == [a[0]] + a[1..];
      LocatedCons(a[0], a[1..] + b);
      LocatedCons(a[0], a[1..]);
    } else {
      assert a + b == b;
    }
  }

  /** `c.toUpperCase()` on one character, for the ASCII letters. */
  function UpperAscii(c: char): char
  {
    if 'a' <= c <= 'z' then (c as int - 'a' as int + 'A' as int) as char else c
  }

  /**
   * The avatar fallback `username[0].toUpperCase()`. For an empty username
   * `username[0]` is undefined and the call throws: that is `None`.
   */
  function AvatarFallback(username: string): (r: Option<string>)
    ensures r.Some? <==> |username| > 0
    ensures r.Some? ==> |r.value| == 1 && !('a' <= r.value[0] <= 'z')
    ensures r.Some? && !('a' <= username[0] <= 'z') ==> r.value[0] == username[0]
    ensures r.Some? && 'a' <= username[0] <= 'z' ==>
      'A' <= r.value[0] <= 'Z' && r.value[0] as int - 'A' as int == username[0] as int - 'a' as int
  {
    if |username| == 0 then None else Some([UpperAscii(username[0])])
  }
}
