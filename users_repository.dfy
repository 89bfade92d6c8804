/**
 * The user timezone binding (app/repositories/users_repository.py): one
 * record per Telegram user id, written by an upsert.
 */
module Users {
  import opened Wrappers

  datatype User = User(
    userId: string,
    username: string,
    firstName: string,
    lastName: string,
    timezone: string,
    registeredAt: int)

  /**
   * Python's `value or default` on an optional string: None and "" are
   * falsy. The stored name is never empty when the default is not, and it is
   * the given value whenever it is not the default.
   */
  function OrDefault(value: Option<string>, default: string): (r: string)
    ensures default != "" ==> r != ""
    ensures r != default ==> value == Some(r)
  {
    if value.Some? && value.value != "" then value.value else default
  }

  /** The record `create_or_update_user` writes: the given fields, with defaults for missing names. */
  function UserRecord(userId: string, username: Option<string>, firstName: Option<string>,
                      lastName: Option<string>, timezone: string, now: int): User
  {
    User(userId,
         OrDefault(username, "Неизвестный"),
         OrDefault(firstName, "Неизвестно"),
         OrDefault(lastName, "Неизвестно"),
         timezone, now)
  }

  /** The zone name the reminder service uses for a user: the stored one, or "UTC" for an unknown user. */
  function TimezoneOf(users: map<string, User>, userId: string): string {
    if userId in users then users[userId].timezone else "UTC"
  }

  /** `update_one({"user_id": id}, {"$set": {"timezone": tz}})` without upsert. */
  function WithTimezone(users: map<string, User>, userId: string, timezone: string): map<string, User> {
    if userId in users then users[userId := users[userId].(timezone := timezone)] else users
  }

  /** The users collection. */
  class UserRepository {
    var table: map<string, User>

    constructor ()
      ensures table == map[]
    {
      table := map[];
    }

    /** `get_user`: the record for the id, or None. */
    method GetUser(userId: string) returns (u: Option<User>)
      ensures u.Some? <==> userId in table
      ensures u.Some? ==> u.value == table[userId]
    {
      if userId in table {
        u := Some(table[userId]);
      } else {
        u := None;
      }
    }

    /**
     * `create_or_update_user`: the upsert. Afterwards the id has exactly one
     * record, all of whose fields are the given ones; no other record changes.
     */
    method CreateOrUpdateUser(userId: string, username: Option<string>, firstName: Option<string>,
                              lastName: Option<string>, timezone: string, now: int)
      modifies this
      ensures table == old(table)[userId := UserRecord(userId, username, firstName, lastName, timezone, now)]
    {
      table := table[userId := UserRecord(userId, username, firstName, lastName, timezone, now)];
    }

    /** `update_timezone`: changes only the zone of an existing record; creates nothing. */
    method UpdateTimezone(userId: string, timezone: string)
      modifies this
      ensures table == WithTimezone(old(table), userId, timezone)
    {
      if userId in table {
        table := table[userId := table[userId].(timezone := timezone)];
      }
    }
  }

  /** `UserService`: every call is handed to the repository unchanged. */
  class UserService {
    const repository: UserRepository

    constructor (repository: UserRepository)
      ensures this.repository == repository
    {
      this.repository := repository;
    }

    method GetUser(userId: string) returns (u: Option<User>)
      ensures u == (if userId in repository.table then Some(repository.table[userId]) else None)
    {
      u := repository.GetUser(userId);
    }

    method RegisterOrUpdateUser(userId: string, username: Option<string>, firstName: Option<string>,
                                lastName: Option<string>, timezone: string, now: int)
      modifies repository
      ensures repository.table
        == old(repository.table)[userId := UserRecord(userId, username, firstName, lastName, timezone, now)]
    {
      repository.CreateOrUpdateUser(userId, username, firstName, lastName, timezone, now);
    }

    method SetUserTimezone(userId: string, timezone: string)
      modifies repository
      ensures repository.table == WithTimezone(old(repository.table), userId, timezone)
    {
      repository.UpdateTimezone(userId, timezone);
    }
  }

  /**
   * After an upsert the user's zone is the given one, and every name field is
   * the given name when it is truthy and its default otherwise.
   */
  lemma UpsertBindsTimezone(users: map<string, User>, userId: string, username: Option<string>,
                            firstName: Option<string>, lastName: Option<string>, timezone: string, now: int)
    ensures var users' := users[userId := UserRecord(userId, username, firstName, lastName, timezone, now)];
      && TimezoneOf(users', userId) == timezone
      && users'[userId].username == (if username.Some? && username.value != "" then username.value else "Неизвестный")
      && users'[userId].firstName == (if firstName.Some? && firstName.value != "" then firstName.value else "Неизвестно")
      && users'[userId].lastName == (if lastName.Some? && lastName.value != "" then lastName.value else "Неизвестно")
      && (forall other :: other != userId ==> TimezoneOf(users', other) == TimezoneOf(users, other))
  {
  }

  /**
   * `update_timezone` changes the zone the service resolves for a known user
   * and nothing else; an unknown user stays unknown and keeps resolving to "UTC".
   */
  lemma UpdateTimezoneThenResolve(users: map<string, User>, userId: string, timezone: string)
    ensures var users' := WithTimezone(users, userId, timezone);
      && users'.Keys == users.Keys
      && TimezoneOf(users', userId) == (if userId in users then timezone else "UTC")
      && (forall other :: other in users && other != userId ==> users'[other] == users[other])
      && (userId in users ==> users'[userId] == users[userId].(timezone := timezone))
  {
  }
}
