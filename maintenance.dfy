/**
  The global `update_mode` flag and the hidden, owner-only `!updating`
  prefix command that flips it. The presence change, the channel reply and
  the deletion of the command message are Discord calls; only which reply is
  sent is kept.
 */
module Maintenance {
  import opened Wrappers
  import WebPanel

  /** OWNER_ID: the only account whose `!updating` has any effect. */
  const OwnerId: int := 447812883158532106

  /** What `!updating` answers: nothing for another author, otherwise whether maintenance is now on. */
  datatype ToggleReply = Ignored | Enabled | Disabled

  /** `toggle_update_mode`: the flag after `!updating` from `author`. */
  function Toggled(updateMode: bool, author: int): bool {
    if author != OwnerId then updateMode else !updateMode
  }

  function ToggleReplyFor(updateMode: bool, author: int): ToggleReply {
    if author != OwnerId then Ignored else if !updateMode then Enabled else Disabled
  }

  /** A non-owner leaves the flag as it was and gets no reply. */
  lemma NonOwnerIgnored(updateMode: bool, author: int)
    requires author != OwnerId
    ensures Toggled(updateMode, author) == updateMode
    ensures ToggleReplyFor(updateMode, author) == Ignored
  {
  }

  /** The owner negates the flag, and the reply names the new value. */
  lemma OwnerFlips(updateMode: bool)
    ensures Toggled(updateMode, OwnerId) == !updateMode
    ensures ToggleReplyFor(updateMode, OwnerId) == (if Toggled(updateMode, OwnerId) then Enabled else Disabled)
  {
  }

  /** Applying any `!updating` twice from the same author restores the original flag. */
  lemma ToggleTwiceRestores(updateMode: bool, author: int)
    ensures Toggled(Toggled(updateMode, author), author) == updateMode
  {
  }

  /** The flag after a sequence of `!updating` commands, one author per command. */
  function ToggledBy(updateMode: bool, authors: seq<int>): bool
    decreases |authors|
  {
    if authors == [] then updateMode else ToggledBy(Toggled(updateMode, authors[0]), authors[1..])
  }

  /** The number of commands in `authors` that the owner sent. */
  function OwnerCount(authors: seq<int>): nat
    decreases |authors|
  {
    if authors == [] then 0 else (if authors[0] == OwnerId then 1 else 0) + OwnerCount(authors[1..])
  }

  /** After any sequence of commands the flag has flipped once per owner command: only its parity matters. */
  lemma {:induction false} ToggledByParity(updateMode: bool, authors: seq<int>)
    ensures ToggledBy(updateMode, authors) == (if OwnerCount(authors) % 2 == 0 then updateMode else !updateMode)
    decreases |authors|
  {
    if authors != [] {
      ToggledByParity(Toggled(updateMode, authors[0]), authors[1..]);
    }
  }

  /** Once the owner switches maintenance on, every authenticated dashboard request gets the 503 page, and unauthenticated ones still the login redirect. */
  lemma OwnerToggleShowsMaintenance(sessions: WebPanel.Sessions, cookie: Option<WebPanel.Token>)
    ensures WebPanel.CheckAuth(sessions, cookie) ==>
      WebPanel.HealthCheck(sessions, Toggled(false, OwnerId), cookie) == WebPanel.Page(WebPanel.UpdatePage, 503)
    ensures !WebPanel.CheckAuth(sessions, cookie) ==>
      WebPanel.HealthCheck(sessions, Toggled(false, OwnerId), cookie) == WebPanel.Redirect("/login", WebPanel.KeepCookie)
  {
  }

  /** The module-level `update_mode` global. */
  class MaintenanceFlag {
    var updateMode: bool

    constructor ()
      ensures !updateMode
    {
      updateMode := false;
    }

    /** `!updating` */
    method ToggleUpdateMode(author: int) returns (reply: ToggleReply)
      modifies this
      ensures updateMode == Toggled(old(updateMode), author)
      ensures reply == ToggleReplyFor(old(updateMode), author)
    {
      if author != OwnerId {
        return Ignored;
      }
      updateMode := !updateMode;
      reply := if updateMode then Enabled else Disabled;
    }
  }
}
