/** The shared idempotency store: one claim per key, in a database table that
    every instance of a service uses. */
module Claims {
  import opened Messaging

  /** A claim that timed out is `Expired`: still in the table, and anybody's. */
  datatype Claim = Held | Expired | Confirmed

  type Table = map<string, Claim>

  predicate Free(t: Table, key: string) {
    key !in t || t[key] == Expired
  }

  /** A claim: the new table, and whether the caller was told it has the key. */
  function Claimed(t: Table, key: string, r: Reply): Table {
    if r != Failed && Free(t, key) then t[key := Held] else t
  }

  /** A release is by key alone: whoever holds the claim loses it. */
  function Released(t: Table, key: string, r: Reply): Table {
    if r != Failed then t - {key} else t
  }

  /** A confirmation is by key alone, and changes no row when there is none. */
  function ConfirmedIn(t: Table, key: string, r: Reply): Table {
    if r != Failed && key in t then t[key := Confirmed] else t
  }

  class Store {
    var table: Table

    constructor ()
      ensures table == map[]
    {
      table := map[];
    }

    method Claim(key: string, r: Reply) returns (claimed: bool, err: bool)
      modifies this
      ensures table == Claimed(old(table), key, r)
      ensures claimed == (r == Ok && Free(old(table), key))
      ensures claimed ==> key in table && table[key] == Held
      ensures err == (r != Ok)
      // Nobody's claim is taken while it is held or confirmed.
      ensures key in old(table) && old(table)[key] != Expired ==> table == old(table) && !claimed
      ensures key !in old(table) || old(table)[key] == Expired ==>
                table == (if r == Failed then old(table) else old(table)[key := Held]) && claimed == (r == Ok)
    {
      claimed := false;
      if r != Failed && (key !in table || table[key] == Expired) {
        table := table[key := Held];
        claimed := r == Ok;
      }
      err := r != Ok;
    }

    method Release(key: string, r: Reply) returns (err: bool)
      modifies this
      ensures table == Released(old(table), key, r)
      ensures table == if r == Failed then old(table) else old(table) - {key}
      ensures err == (r != Ok)
    {
      if r != Failed {
        table := table - {key};
      }
      err := r != Ok;
    }

    method Confirm(key: string, r: Reply) returns (err: bool)
      modifies this
      ensures table == ConfirmedIn(old(table), key, r)
      ensures table == if r == Failed || key !in old(table) then old(table) else old(table)[key := Confirmed]
      ensures err == (r != Ok)
    {
      if r != Failed && key in table {
        table := table[key := Confirmed];
      }
      err := r != Ok;
    }
  }
}
