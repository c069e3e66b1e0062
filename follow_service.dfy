/**
 * The set of followed user ids, kept in memory and written to key-value
 * storage under "followedUsers" after every change; a new service starts
 * from what the storage holds.
 */
module Following {
  import opened Text

  const FollowedUsersKey: string := "followedUsers"

  /** A stored value: a set of ids, or bytes that do not decode as one. */
  datatype Stored = Ids(ids: set<int>) | Unreadable

  /** Key-value storage, as the test double keeps it: a dictionary; saves may be made to fail. */
  class Storage {
    var entries: map<string, Stored>
    var rejectsSaves: bool

    constructor(entries: map<string, Stored>, rejectsSaves: bool)
      ensures this.entries == entries && this.rejectsSaves == rejectsSaves
    {
      this.entries := entries;
      this.rejectsSaves := rejectsSaves;
    }

    /** `save(_:forKey:)`: stores the ids under the key, or fails and changes nothing. */
    method Save(ids: set<int>, key: string) returns (saved: bool)
      modifies this`entries
      ensures saved == !rejectsSaves
      ensures entries == if saved then old(entries)[key := Ids(ids)] else old(entries)
    {
      saved := !rejectsSaves;
      if saved {
        entries := entries[key := Ids(ids)];
      }
    }
  }

  /** `(try? storage.load(...)) ?? []`: the stored ids, or none when nothing is stored or it does not decode. */
  function InitialUsers(stored: Option<Stored>): (ids: set<int>)
    ensures stored.Some? && stored.value.Ids? ==> ids == stored.value.ids
    ensures stored.None? || stored.value.Unreadable? ==> ids == {}
  {
    if stored.Some? && stored.value.Ids? then stored.value.ids else {}
  }

  function Lookup(entries: map<string, Stored>, key: string): (r: Option<Stored>)
    ensures r.Some? <==> key in entries
    ensures r.Some? ==> r.value == entries[key]
  {
    if key in entries then Some(entries[key]) else None
  }

  class FollowService {
    const storage: Storage
    var cachedFollowedUsers: set<int>

    /** The storage holds the in-memory set under the key, unless saves are rejected. */
    predicate Mirrored()
      reads this, storage
    {
      !storage.rejectsSaves ==> FollowedUsersKey in storage.entries && storage.entries[FollowedUsersKey] == Ids(cachedFollowedUsers)
    }

    /** `init(storage:)`: start from the stored set; loading does not write. */
    constructor(storage: Storage)
      ensures this.storage == storage
      ensures cachedFollowedUsers == InitialUsers(Lookup(storage.entries, FollowedUsersKey))
    {
      this.storage := storage;
      cachedFollowedUsers := InitialUsers(Lookup(storage.entries, FollowedUsersKey));
    }

    function IsFollowing(userId: int): (following: bool)
      reads this
      ensures following <==> userId in cachedFollowedUsers
    {
      userId in cachedFollowedUsers
    }

    /** `saveToStorage`: a failed save is swallowed. */
    method SaveToStorage()
      modifies storage`entries
      ensures Mirrored()
      ensures storage.entries == if storage.rejectsSaves then old(storage.entries)
        else old(storage.entries)[FollowedUsersKey := Ids(cachedFollowedUsers)]
    {
      var _ := storage.Save(cachedFollowedUsers, FollowedUsersKey);
    }

    /** `follow(userId:)`: insert, then save, even when the id was already followed. */
    method Follow(userId: int)
      modifies this, storage`entries
      ensures cachedFollowedUsers == old(cachedFollowedUsers) + {userId}
      ensures Mirrored()
      ensures storage.entries == if storage.rejectsSaves then old(storage.entries)
        else old(storage.entries)[FollowedUsersKey := Ids(cachedFollowedUsers)]
    {
      cachedFollowedUsers := cachedFollowedUsers + {userId};
      SaveToStorage();
    }

    /** `unfollow(userId:)`: remove, then save, even when the id was not followed. */
    method Unfollow(userId: int)
      modifies this, storage`entries
      ensures cachedFollowedUsers == old(cachedFollowedUsers) - {userId}
      ensures Mirrored()
      ensures storage.entries == if storage.rejectsSaves then old(storage.entries)
        else old(storage.entries)[FollowedUsersKey := Ids(cachedFollowedUsers)]
    {
      cachedFollowedUsers := cachedFollowedUsers - {userId};
      SaveToStorage();
    }

    /** `toggleFollow(userId:)`: unfollow a followed id, follow any other; no other id changes. */
    method ToggleFollow(userId: int)
      modifies this, storage`entries
      ensures IsFollowing(userId) == !old(IsFollowing(userId))
      ensures cachedFollowedUsers ==
        if old(IsFollowing(userId)) then old(cachedFollowedUsers) - {userId} else old(cachedFollowedUsers) + {userId}
      ensures forall other :: other != userId ==> (other in cachedFollowedUsers <==> other in old(cachedFollowedUsers))
      ensures Mirrored()
      ensures storage.entries == if storage.rejectsSaves then old(storage.entries)
        else old(storage.entries)[FollowedUsersKey := Ids(cachedFollowedUsers)]
    {
      if IsFollowing(userId) {
        Unfollow(userId);
      } else {
        Follow(userId);
      }
    }
  }

  /** Toggling twice restores the set. */
  method ToggleTwice(service: FollowService, userId: int)
    modifies service, service.storage`entries
    ensures service.cachedFollowedUsers == old(service.cachedFollowedUsers)
    ensures service.Mirrored()
    ensures service.storage.entries == if service.storage.rejectsSaves then old(service.storage.entries)
      else old(service.storage.entries)[FollowedUsersKey := Ids(old(service.cachedFollowedUsers))]
  {
    service.ToggleFollow(userId);
    service.ToggleFollow(userId);
  }

  /** A follow survives into a new service on the same storage, unless saves are rejected. */
  method FollowThenReload(service: FollowService, userId: int) returns (reloaded: FollowService)
    modifies service, service.storage`entries
    ensures service.storage.rejectsSaves || reloaded.IsFollowing(userId)
    ensures !service.storage.rejectsSaves ==> reloaded.cachedFollowedUsers == service.cachedFollowedUsers
  {
    service.Follow(userId);
    reloaded := new FollowService(service.storage);
  }
}
