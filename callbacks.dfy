/**
 * The callback tokens carried by inline buttons: built as
 * `"confirm_reminder:" + id` (app/bot/middleware.py) and
 * `"delete_reminder:" + id` (app/bot/handlers/reminders.py), and read back
 * with `data.split(":")[1]`.
 */
module Callbacks {
  import opened Wrappers
  import opened ReminderCrud

  const ConfirmPrefix: string := "confirm_reminder:"
  const DeletePrefix: string := "delete_reminder:"

  function ConfirmToken(id: string): string {
    ConfirmPrefix + id
  }

  function DeleteToken(id: string): string {
    DeletePrefix + id
  }

  /** Python's `s.split(":")`: the pieces between colons, at least one. */
  function Split(s: string): (parts: seq<string>)
    ensures |parts| >= 1
    decreases |s|
  {
    if s == [] then [""]
    else
      var rest := Split(s[1..]);
      if s[0] == ':' then [""] + rest
      else [[s[0]] + rest[0]] + rest[1..]
  }

  /** `data.split(":")[1]`: the text between the first colon and the next one (IndexError without a colon). */
  function CallbackId(data: string): Result<string> {
    var parts := Split(data);
    if |parts| < 2 then Err(IndexError) else Ok(parts[1])
  }

  predicate StartsWith(s: string, prefix: string) {
    |prefix| <= |s| && s[..|prefix|] == prefix
  }

  /** Which callback handler the router picks (`F.data.startswith(...)`, in registration order). */
  datatype CallbackRoute = ToDelete | ToConfirm | Unrouted

  function Route(data: string): CallbackRoute {
    if StartsWith(data, DeletePrefix) then ToDelete
    else if StartsWith(data, ConfirmPrefix) then ToConfirm
    else Unrouted
  }

  /** Text without a colon splits into itself alone. */
  lemma {:induction false} SplitWithoutColon(s: string)
    requires ':' !in s
    ensures Split(s) == [s]
    decreases |s|
  {
    if s != [] {
      SplitWithoutColon(s[1..]);
      assert [s[0]] + s[1..] == s;
    }
  }

  /** Splitting cuts at the first colon: a colon-free head, then the pieces of the rest. */
  lemma {:induction false} SplitAtFirstColon(head: string, tail: string)
    requires ':' !in head
    ensures Split(head + ":" + tail) == [head] + Split(tail)
    decreases |head|
  {
    var s := head + ":" + tail;
    if head == [] {
      assert s[0] == ':' && s[1..] == tail;
    } else {
      assert s[1..] == head[1..] + ":" + tail;
      SplitAtFirstColon(head[1..], tail);
      assert [head[0]] + head[1..] == head;
    }
  }

  /** The id read back from a token is the id put in, for every colon-free id. */
  lemma TokenRoundTrip(id: string)
    requires ':' !in id
    ensures CallbackId(ConfirmToken(id)) == Ok(id)
    ensures CallbackId(DeleteToken(id)) == Ok(id)
  {
    SplitWithoutColon(id);
    assert ConfirmToken(id) == "confirm_reminder" + ":" + id;
    SplitAtFirstColon("confirm_reminder", id);
    assert DeleteToken(id) == "delete_reminder" + ":" + id;
    SplitAtFirstColon("delete_reminder", id);
  }

  /** An id containing a colon comes back cut at that colon. */
  lemma TokenTruncatesAtColon(head: string, tail: string)
    requires ':' !in head
    ensures CallbackId(ConfirmToken(head + ":" + tail)) == Ok(head)
  {
    assert ConfirmToken(head + ":" + tail) == "confirm_reminder" + ":" + (head + ":" + tail);
    SplitAtFirstColon("confirm_reminder", head + ":" + tail);
    SplitAtFirstColon(head, tail);
  }

  /** Stored ids are hex text, so every token the bot builds routes to its handler and parses back to its id. */
  lemma StoredIdTokens(id: Id)
    ensures ':' !in id
    ensures Route(ConfirmToken(id)) == ToConfirm && CallbackId(ConfirmToken(id)) == Ok(id)
    ensures Route(DeleteToken(id)) == ToDelete && CallbackId(DeleteToken(id)) == Ok(id)
  {
    assert forall i :: 0 <= i < |id| ==> id[i] != ':';
    TokenRoundTrip(id);
    assert ConfirmToken(id)[..|ConfirmPrefix|] == ConfirmPrefix;
    assert DeleteToken(id)[..|DeletePrefix|] == DeletePrefix;
    assert ConfirmToken(id)[0] != DeletePrefix[0];
  }
}
