/** The two tables the lifecycle shares, updated in place as the repositories do. */
module Repositories {
  import opened Base
  import opened Lifecycle

  /** wallet_nonces: one counter per wallet and chain. */
  class WalletNonceRepository {
    var nonces: map<Slot, nat>

    constructor ()
      ensures nonces == map[]
    {
      nonces := map[];
    }

    /** Upsert that consumes the next number: an absent counter is created at 1. */
    method Reserve(slot: Slot) returns (reserved: nat)
      modifies this
      ensures reserved == if slot in old(nonces) then old(nonces)[slot] else 0
      ensures nonces == old(nonces)[slot := reserved + 1]
    {
      if slot in nonces {
        nonces := nonces[slot := nonces[slot] + 1];
      } else {
        nonces := nonces[slot := 1];
      }
      reserved := nonces[slot] - 1;
    }

    /** Rolls back only the tail of the sequence; says whether it did. */
    method Release(slot: Slot, nonce: nat) returns (released: bool)
      modifies this
      ensures released <==> slot in old(nonces) && old(nonces)[slot] == nonce + 1
      ensures nonces == if released then old(nonces)[slot := nonce] else old(nonces)
    {
      released := slot in nonces && nonces[slot] == nonce + 1;
      if released {
        nonces := nonces[slot := nonce];
      }
    }

    /** Upsert that only raises the counter. */
    method SyncFromChain(slot: Slot, chainNonce: nat)
      modifies this
      ensures nonces == if slot in old(nonces) && old(nonces)[slot] >= chainNonce then old(nonces)
                else old(nonces)[slot := chainNonce]
    {
      if slot !in nonces {
        nonces := nonces[slot := chainNonce];
      } else if nonces[slot] < chainNonce {
        nonces := nonces[slot := chainNonce];
      }
    }
  }

  /** signing_requests with its unique index on the idempotency key. */
  class SigningRequestRepository {
    var rows: map<RowId, Row>
    var index: map<string, RowId>

    /** The index lists exactly the rows, each under its own key. */
    ghost predicate Valid()
      reads this
    {
      && (forall key :: key in index ==> index[key] in rows && rows[index[key]].key == key)
      && (forall id :: id in rows ==> rows[id].key in index && index[rows[id].key] == id)
    }

    constructor ()
      ensures Valid() && rows == map[] && index == map[]
    {
      rows, index := map[], map[];
    }

    /** The row whose key column holds the key; there is at most one. */
    method FindByIdempotencyKey(key: string) returns (found: Option<Found>)
      requires Valid()
      ensures found.Some? <==> exists id :: id in rows && rows[id].key == key
      ensures forall id :: id in rows && rows[id].key == key ==> found == Some(Found(id, rows[id]))
    {
      if key in index {
        found := Some(Found(index[key], rows[index[key]]));
      } else {
        found := None;
      }
    }

    /** The rows in status broadcasted, by id. */
    method FindBroadcasted() returns (found: map<RowId, Row>)
      ensures forall id :: id in found <==> id in rows && rows[id].status == Broadcasted
      ensures forall id :: id in found ==> found[id] == rows[id]
    {
      found := map[];
      var rest := rows.Keys;
      while rest != {}
        invariant rest <= rows.Keys
        invariant forall id :: id in found <==> id in rows && id !in rest && rows[id].status == Broadcasted
        invariant forall id :: id in found ==> found[id] == rows[id]
      {
        var id :| id in rest;
        if rows[id].status == Broadcasted {
          found := found[id := rows[id]];
        }
        rest := rest - {id};
      }
    }

    /** Inserts, unless a unique index already has the key or the id. */
    method Create(id: RowId, row: Row) returns (created: bool)
      requires Valid()
      modifies this
      ensures Valid()
      ensures created <==> id !in old(rows) && forall i :: i in old(rows) ==> old(rows)[i].key != row.key
      ensures rows == if created then old(rows)[id := row] else old(rows)
      ensures index == if created then old(index)[row.key := id] else old(index)
    {
      created := row.key !in index && id !in rows;
      if created {
        rows := rows[id := row];
        index := index[row.key := id];
      }
    }

    /** Undefined fields are dropped, column by column; the key and the identity columns are
        not updatable. */
    method Update(id: RowId, fields: RowUpdate)
      requires Valid()
      modifies this`rows
      ensures Valid()
      ensures rows == if id in old(rows) then old(rows)[id := Merge(old(rows)[id], fields)] else old(rows)
    {
      if id in rows {
        var row := rows[id];
        for column := 0 to ColumnCount
          invariant row == Merge(rows[id], FirstFields(fields, column))
        {
          row := SetColumn(row, fields, column);
        }
        rows := rows[id := row];
      }
    }
  }

  const ColumnCount := 9

  /** Writes one column if the field is defined. */
  function SetColumn(row: Row, u: RowUpdate, column: nat): Row {
    match column
    case 0 => if u.status.Some? then row.(status := u.status.value) else row
    case 1 => if u.payload.Some? then row.(payload := u.payload) else row
    case 2 => if u.hash.Some? then row.(hash := u.hash) else row
    case 3 => if u.signature.Some? then row.(signature := u.signature) else row
    case 4 => if u.failureReason.Some? then row.(failureReason := u.failureReason) else row
    case 5 => if u.errorType.Some? then row.(errorType := u.errorType) else row
    case 6 => if u.blockNumber.Some? then row.(blockNumber := u.blockNumber) else row
    case 7 => if u.attempts.Some? then row.(attempts := u.attempts.value) else row
    case _ => if u.originalHash.Some? then row.(originalHash := u.originalHash) else row
  }

  function Before<T>(column: nat, limit: nat, field: Option<T>): Option<T> {
    if column < limit then field else None
  }

  /** The update restricted to the columns below `limit`. */
  function FirstFields(u: RowUpdate, limit: nat): RowUpdate {
    RowUpdate(Before(0, limit, u.status), Before(1, limit, u.payload), Before(2, limit, u.hash),
              Before(3, limit, u.signature), Before(4, limit, u.failureReason), Before(5, limit, u.errorType),
              Before(6, limit, u.blockNumber), Before(7, limit, u.attempts), Before(8, limit, u.originalHash))
  }
}
