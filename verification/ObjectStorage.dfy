/**
 The object store behind every storage driver: a map from object names to blobs.
 Listing is by string prefix, and `ListObjects` drops empty blobs.
 */
module ObjectStorage {
  import opened Text

  datatype ManifestObject = ManifestObject(path: string, size: nat, md5: string)
  datatype Section = Section(keyspace: string, columnfamily: string, objects: seq<ManifestObject>)
  type Manifest = seq<Section>

  /** Blob content: plain text or bytes, or a JSON manifest document. */
  datatype Body = Raw(data: string) | Doc(sections: Manifest)
  datatype Blob = Blob(size: nat, mtime: nat, md5: string, body: Body)

  type Store = map<string, Blob>

  function ListBlobs(st: Store, prefix: string): set<string> {
    set k | k in st && prefix <= k
  }

  function ListObjects(st: Store, prefix: string): set<string> {
    set k | k in st && prefix <= k && st[k].size > 0
  }

  /** A driver returns each listed name once, in an order of its own. */
  ghost predicate Enumerates(order: seq<string>, keys: set<string>) {
    && (forall i :: 0 <= i < |order| ==> order[i] in keys)
    && (forall k :: k in keys ==> k in order)
    && (forall i, j :: 0 <= i < j < |order| ==> order[i] != order[j])
  }

  /** The sum of the sizes of the given objects. */
  ghost function SizeOf(st: Store, keys: set<string>): nat
    requires keys <= st.Keys
  {
    if keys == {} then 0
    else
      var k :| k in keys;
      st[k].size + SizeOf(st, keys - {k})
  }

  lemma {:induction false} SizeOfRemove(st: Store, keys: set<string>, k: string)
    requires keys <= st.Keys && k in keys
    ensures SizeOf(st, keys) == st[k].size + SizeOf(st, keys - {k})
    decreases keys
  {
    var x :| x in keys && SizeOf(st, keys) == st[x].size + SizeOf(st, keys - {x});
    if x != k {
      SizeOfRemove(st, keys - {x}, k);
      SizeOfRemove(st, keys - {k}, x);
      assert keys - {x} - {k} == keys - {k} - {x};
    }
  }

  lemma {:induction false} SizeOfSplit(st: Store, keys: set<string>, part: set<string>)
    requires keys <= st.Keys && part <= keys
    ensures SizeOf(st, keys) == SizeOf(st, part) + SizeOf(st, keys - part)
    decreases part
  {
    if part == {} {
      assert keys - part == keys;
    } else {
      var k :| k in part;
      SizeOfRemove(st, keys, k);
      SizeOfRemove(st, part, k);
      SizeOfSplit(st, keys - {k}, part - {k});
      assert keys - {k} - (part - {k}) == keys - part;
    }
  }

  lemma {:induction false} SizeOfSame(st: Store, other: Store, keys: set<string>)
    requires keys <= st.Keys && keys <= other.Keys
    requires forall k :: k in keys ==> st[k] == other[k]
    ensures SizeOf(st, keys) == SizeOf(other, keys)
    decreases keys
  {
    if keys != {} {
      var k :| k in keys;
      SizeOfRemove(st, keys, k);
      SizeOfRemove(other, keys, k);
      SizeOfSame(st, other, keys - {k});
    }
  }

  class ObjectStore {
    var blobs: Store

    constructor ()
      ensures blobs == map[]
    {
      blobs := map[];
    }

    /** Names in an order of the driver's choice. */
    method InDriverOrder(keys: set<string>) returns (names: seq<string>)
      ensures Enumerates(names, keys)
    {
      names := [];
      var rest := keys;
      while rest != {}
        invariant rest <= keys
        invariant forall i :: 0 <= i < |names| ==> names[i] in keys && names[i] !in rest
        invariant forall k :: k in keys ==> k in rest || k in names
        invariant forall i, j :: 0 <= i < j < |names| ==> names[i] != names[j]
        decreases rest
      {
        var k :| k in rest;
        names := names + [k];
        rest := rest - {k};
      }
    }

    /** list_objects: the non-empty blobs under a prefix. */
    method List(prefix: string) returns (names: seq<string>)
      ensures Enumerates(names, ListObjects(blobs, prefix))
    {
      names := InDriverOrder(ListObjects(blobs, prefix));
    }

    /** list_blobs: all blobs under a prefix. */
    method ListAll(prefix: string) returns (names: seq<string>)
      ensures Enumerates(names, ListBlobs(blobs, prefix))
    {
      names := InDriverOrder(ListBlobs(blobs, prefix));
    }

    method Put(name: string, blob: Blob)
      modifies this
      ensures blobs == old(blobs)[name := blob]
    {
      blobs := blobs[name := blob];
    }

    method Delete(name: string)
      modifies this
      ensures blobs == old(blobs) - {name}
    {
      blobs := blobs - {name};
    }
  }
}
