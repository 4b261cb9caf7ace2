/** `Business` (root/models.py) and the `activate` action of its view set (root/views.py): an owner
    picks which of their businesses is the active one. */
module Businesses {
  import opened Common

  datatype Business = Business(owner: nat, isActive: bool)

  /** The ids of the businesses of `owner`. */
  function Owned(rows: map<BusinessId, Business>, owner: nat): (ids: set<BusinessId>)
    ensures forall b :: b in ids <==> b in rows && rows[b].owner == owner
  {
    set b | b in rows && rows[b].owner == owner
  }

  /** The ids of the active businesses of `owner`. */
  function ActiveOwned(rows: map<BusinessId, Business>, owner: nat): (ids: set<BusinessId>)
    ensures forall b :: b in ids <==> b in rows && rows[b].owner == owner && rows[b].isActive
  {
    set b | b in rows && rows[b].owner == owner && rows[b].isActive
  }

  /** The table after a successful `activate`: each business of `owner` is active iff its id is
      `pk`; only `is_active` is written, and businesses of other owners are left as they were. */
  function Activated(rows: map<BusinessId, Business>, owner: nat, pk: int): (r: map<BusinessId, Business>)
    ensures r.Keys == rows.Keys
    ensures forall b | b in rows :: r[b].owner == rows[b].owner
    ensures forall b | b in rows && rows[b].owner != owner :: r[b] == rows[b]
  {
    map b | b in rows :: if rows[b].owner == owner then rows[b].(isActive := b == pk) else rows[b]
  }

  /** After `activate` the owner has exactly one active business when `pk` is one of theirs, and
      none otherwise. */
  lemma ActivateLeavesOneActive(rows: map<BusinessId, Business>, owner: nat, pk: int)
    ensures ActiveOwned(Activated(rows, owner, pk), owner) == if pk in Owned(rows, owner) then {pk as nat} else {}
  {
    var r := Activated(rows, owner, pk);
    forall b | b in ActiveOwned(r, owner)
      ensures b == pk && b in Owned(rows, owner)
    {
    }
  }

  /** Activating the same business twice leaves the same table as activating it once. */
  lemma ActivateIdempotent(rows: map<BusinessId, Business>, owner: nat, pk: int)
    ensures Activated(Activated(rows, owner, pk), owner, pk) == Activated(rows, owner, pk)
  {
  }

  /** The `Business` table. */
  class BusinessTable {
    var rows: map<BusinessId, Business>

    constructor (rows: map<BusinessId, Business>)
      ensures this.rows == rows
    {
      this.rows := rows;
    }

    /** `activate`: with no business of `owner`, nothing changes (404); otherwise every one of
        them is assigned `is_active` in turn and the table is written. */
    method Activate(owner: nat, pk: int) returns (found: bool)
      modifies this`rows
      ensures found <==> Owned(old(rows), owner) != {}
      ensures rows == if found then Activated(old(rows), owner, pk) else old(rows)
    {
      var owned := set b | b in rows && rows[b].owner == owner;
      if owned == {} {
        return false;
      }
      ghost var start := rows;
      var todo := owned;
      while todo != {}
        invariant todo <= owned
        invariant rows.Keys == start.Keys
        invariant forall b | b in start ::
                    rows[b] == if b in owned && b !in todo then start[b].(isActive := b == pk) else start[b]
        decreases todo
      {
        var b :| b in todo;
        rows := rows[b := rows[b].(isActive := b == pk)];
        todo := todo - {b};
      }
      found := true;
    }
  }
}
