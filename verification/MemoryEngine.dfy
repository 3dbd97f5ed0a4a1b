/** The in-memory key-value engine. */
module MemoryEngine {
  import opened Types
  import opened StateMachine

  ghost function WithPrefix(data: Store, prefix: string): Store {
    data - (set k | k in data && !(prefix <= k))
  }

  class MemoryEngine {
    var data: Store

    constructor ()
      ensures data == map[]
    {
      data := map[];
    }

    method Get(key: string) returns (value: Option<Bytes>)
      ensures value.Some? <==> key in data
      ensures value.Some? ==> value.value == data[key]
    {
      value := if key in data then Some(data[key]) else None;
    }

    method Put(key: string, value: Bytes)
      modifies this
      ensures data == old(data)[key := value]
    {
      data := data[key := value];
    }

    method Delete(key: string)
      modifies this
      ensures key !in data && forall k :: k != key ==> (k in data <==> k in old(data)) && (k in data ==> data[k] == old(data)[k])
      ensures data == old(data) - {key}
    {
      data := data - {key};
    }

    /** Every key that starts with `prefix`, with its value, and no other. */
    method Scan(prefix: string) returns (result: Store)
      ensures result == WithPrefix(data, prefix)
      ensures forall k :: (k in result <==> k in data && prefix <= k) && (k in result ==> result[k] == data[k])
    {
      result := map[];
      var rest := data.Keys;
      while rest != {}
        invariant rest <= data.Keys
        invariant forall k :: k in result <==> k in data && k !in rest && prefix <= k
        invariant forall k :: k in result ==> result[k] == data[k]
        decreases rest
      {
        var k :| k in rest;
        if prefix <= k {
          result := result[k := data[k]];
        }
        rest := rest - {k};
      }
      assert result.Keys == WithPrefix(data, prefix).Keys;
    }

    method Snapshot() returns (bytes: SnapshotData)
      ensures bytes == Encoded(data)
    {
      bytes := Encoded(data);
    }

    /** A snapshot that cannot be decoded is refused and changes nothing. */
    method RestoreSnapshot(bytes: SnapshotData) returns (ok: bool)
      modifies this
      ensures ok <==> bytes.Encoded?
      ensures data == if ok then bytes.store else old(data)
    {
      match bytes
      case Encoded(store) =>
        data := store;
        ok := true;
      case Malformed =>
        ok := false;
    }

    /** Applies one command the way the node does, through the engine's own operations. */
    method Apply(c: Command) returns (ok: bool)
      modifies this
      ensures Applied(data, ok) == ApplyCommand(old(data), c)
      ensures ok <==> c.op.Noop? || c.op.Put? || c.op.Delete? ||
                      (c.op.Cas? && c.prevValue == if c.key in old(data) then old(data)[c.key] else [])
      ensures forall k :: k != c.key ==> (k in data <==> k in old(data)) && (k in data ==> data[k] == old(data)[k])
      ensures ok && (c.op.Put? || c.op.Cas?) ==> c.key in data && data[c.key] == c.value
      ensures ok && c.op.Delete? ==> c.key !in data
      ensures !ok || c.op.Noop? ==> data == old(data)
    {
      ok := true;
      match c.op
      case Noop =>
      case Put => Put(c.key, c.value);
      case Delete => Delete(c.key);
      case Cas =>
        var existing := Get(c.key);
        var current := if existing.Some? then existing.value else [];
        if current == c.prevValue {
          Put(c.key, c.value);
        } else {
          ok := false;
        }
      case Unknown => ok := false;
    }
  }

  /** What one engine snapshots, another restores: the two hold the same data. */
  method TransferSnapshot(a: MemoryEngine, b: MemoryEngine)
    modifies b
    ensures b.data == old(a.data)
  {
    var bytes := a.Snapshot();
    var ok := b.RestoreSnapshot(bytes);
  }
}
