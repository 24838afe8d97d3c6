/** The flattening loop of `store_context_vector`
    (src/vector_store/weaviate_adapter.py): every entry of the context
    dictionary becomes zero or more text chunks tagged with the source
    "context". Handing the chunks to the vector database is not part of this
    model; the method returns them instead. */
module ContextFlattening {
  import opened Common
  import opened PyValue

  /** `{"content": ..., "source": ...}` */
  datatype Chunk = Chunk(content: string, source: string)

  /** The source every chunk is tagged with. */
  const ContextSource := "context"

  /** `f"{key}: {val}"` */
  function ScalarChunk(key: string, v: Value): Chunk {
    Chunk(key + ": " + Render(v), ContextSource)
  }

  /** `f"{key}[{i}]: {item}"` */
  function ItemChunk(key: string, i: nat, item: Value): Chunk {
    Chunk(key + "[" + NatToString(i) + "]: " + Render(item), ContextSource)
  }

  /** `f"{key}.{subkey}: {subval}"` */
  function EntryChunk(key: string, sub: (string, Value)): Chunk {
    Chunk(key + "." + sub.0 + ": " + Render(sub.1), ContextSource)
  }

  /** The chunks of the first `n` elements of a list value: one per element,
      indexed from 0 in list order. */
  function ItemChunks(key: string, items: seq<Value>, n: nat): (cs: seq<Chunk>)
    requires n <= |items|
    ensures |cs| == n
  {
    if n == 0 then [] else ItemChunks(key, items, n - 1) + [ItemChunk(key, n - 1, items[n - 1])]
  }

  /** The chunks of the first `n` entries of a dict value, in insertion order. */
  function EntryChunks(key: string, entries: Entries, n: nat): (cs: seq<Chunk>)
    requires n <= |entries|
    ensures |cs| == n
  {
    if n == 0 then [] else EntryChunks(key, entries, n - 1) + [EntryChunk(key, entries[n - 1])]
  }

  /** The chunks one context entry yields: a str, int or bool gives one, a
      list or dict one per element, anything else (None) none. */
  function ValueChunks(key: string, v: Value): seq<Chunk> {
    match v
    case Str(_) => [ScalarChunk(key, v)]
    case Int(_) => [ScalarChunk(key, v)]
    case Bool(_) => [ScalarChunk(key, v)]
    case List(items) => ItemChunks(key, items, |items|)
    case Dict(entries) => EntryChunks(key, entries, |entries|)
    case Null => []
  }

  /** How many chunks a value yields. */
  function ChunkCount(v: Value): nat {
    match v
    case List(items) => |items|
    case Dict(entries) => |entries|
    case Null => 0
    case _ => 1
  }

  /** The chunks of the first `n` entries of the context dictionary, in key order. */
  function FlattenPrefix(data: Entries, n: nat): seq<Chunk>
    requires n <= |data|
  {
    if n == 0 then [] else FlattenPrefix(data, n - 1) + ValueChunks(data[n - 1].0, data[n - 1].1)
  }

  /** The whole flattened list. */
  function Flatten(data: Entries): seq<Chunk> {
    FlattenPrefix(data, |data|)
  }

  /** The chunk count of the first `n` entries. */
  function TotalChunks(data: Entries, n: nat): nat
    requires n <= |data|
  {
    if n == 0 then 0 else TotalChunks(data, n - 1) + ChunkCount(data[n - 1].1)
  }

  /** The flattening loop: `flattened` grows entry by entry. */
  method StoreContextVector(data: Entries) returns (flattened: seq<Chunk>)
    ensures flattened == Flatten(data)
  {
    flattened := [];
    for n := 0 to |data|
      invariant flattened == FlattenPrefix(data, n)
    {
      var (key, val) := data[n];
      var chunks := AppendValueChunks(key, val);
      flattened := flattened + chunks;
    }
  }

  /** The loop body for one entry: a scalar is appended once, a list or dict
      element by element, None not at all. */
  method AppendValueChunks(key: string, val: Value) returns (chunks: seq<Chunk>)
    ensures chunks == ValueChunks(key, val)
  {
    chunks := [];
    if val.Str? || val.Int? || val.Bool? {
      chunks := [ScalarChunk(key, val)];
    } else if val.List? {
      for i := 0 to |val.items|
        invariant chunks == ItemChunks(key, val.items, i)
      {
        chunks := chunks + [ItemChunk(key, i, val.items[i])];
      }
    } else if val.Dict? {
      for i := 0 to |val.entries|
        invariant chunks == EntryChunks(key, val.entries, i)
      {
        chunks := chunks + [EntryChunk(key, val.entries[i])];
      }
    }
  }

  /** One entry yields as many chunks as its count says. */
  lemma ValueChunksCount(key: string, v: Value)
    ensures |ValueChunks(key, v)| == ChunkCount(v)
  {
  }

  /** Each entry contributes exactly its chunk count. */
  lemma {:induction false} FlattenCount(data: Entries, n: nat)
    requires n <= |data|
    ensures |FlattenPrefix(data, n)| == TotalChunks(data, n)
  {
    if n > 0 {
      FlattenCount(data, n - 1);
      ValueChunksCount(data[n - 1].0, data[n - 1].1);
    }
  }

  lemma {:induction false} ItemChunksAt(key: string, items: seq<Value>, n: nat, i: nat)
    requires i < n <= |items|
    ensures ItemChunks(key, items, n)[i] == ItemChunk(key, i, items[i])
  {
    var prev := ItemChunks(key, items, n - 1);
    assert ItemChunks(key, items, n) == prev + [ItemChunk(key, n - 1, items[n - 1])];
    if i < n - 1 {
      ItemChunksAt(key, items, n - 1, i);
      assert (prev + [ItemChunk(key, n - 1, items[n - 1])])[i] == prev[i];
    }
  }

  lemma {:induction false} EntryChunksAt(key: string, entries: Entries, n: nat, i: nat)
    requires i < n <= |entries|
    ensures EntryChunks(key, entries, n)[i] == EntryChunk(key, entries[i])
  {
    var prev := EntryChunks(key, entries, n - 1);
    assert EntryChunks(key, entries, n) == prev + [EntryChunk(key, entries[n - 1])];
    if i < n - 1 {
      EntryChunksAt(key, entries, n - 1, i);
      assert (prev + [EntryChunk(key, entries[n - 1])])[i] == prev[i];
    }
  }

  /** A list value at `key` yields, at position i, the chunk "key[i]: item". */
  lemma ListChunks(key: string, items: seq<Value>)
    ensures |ValueChunks(key, List(items))| == |items|
    ensures forall i :: 0 <= i < |items| ==>
      ValueChunks(key, List(items))[i].content == key + "[" + NatToString(i) + "]: " + Render(items[i])
  {
    forall i | 0 <= i < |items|
      ensures ValueChunks(key, List(items))[i].content == key + "[" + NatToString(i) + "]: " + Render(items[i])
    {
      ItemChunksAt(key, items, |items|, i);
    }
  }

  /** A dict value at `key` yields, at position i, the chunk "key.subkey: value". */
  lemma DictChunks(key: string, entries: Entries)
    ensures |ValueChunks(key, Dict(entries))| == |entries|
    ensures forall i :: 0 <= i < |entries| ==>
      ValueChunks(key, Dict(entries))[i].content == key + "." + entries[i].0 + ": " + Render(entries[i].1)
  {
    forall i | 0 <= i < |entries|
      ensures ValueChunks(key, Dict(entries))[i].content == key + "." + entries[i].0 + ": " + Render(entries[i].1)
    {
      EntryChunksAt(key, entries, |entries|, i);
    }
  }

  /** Every chunk is tagged with the source "context". */
  lemma {:induction false} FlattenSources(data: Entries, n: nat)
    requires n <= |data|
    ensures forall i :: 0 <= i < |FlattenPrefix(data, n)| ==> FlattenPrefix(data, n)[i].source == ContextSource
  {
    if n > 0 {
      FlattenSources(data, n - 1);
      var (key, v) := data[n - 1];
      var b := ValueChunks(key, v);
      forall i | 0 <= i < |b| ensures b[i].source == ContextSource {
        if v.List? {
          ItemChunksAt(key, v.items, |v.items|, i);
        } else if v.Dict? {
          EntryChunksAt(key, v.entries, |v.entries|, i);
        }
      }
    }
  }

  /** Chunks follow key order: the chunks of `a + b` are those of `a`, then those of `b`. */
  lemma {:induction false} FlattenConcat(a: Entries, b: Entries, m: nat)
    requires m <= |b|
    ensures FlattenPrefix(a + b, |a| + m) == Flatten(a) + FlattenPrefix(b, m)
  {
    if m == 0 {
      FlattenPrefixOfPrefix(a + b, a, |a|);
    } else {
      FlattenConcat(a, b, m - 1);
      assert (a + b)[|a| + m - 1] == b[m - 1];
    }
  }

  /** The chunks of a prefix depend only on that prefix. */
  lemma {:induction false} FlattenPrefixOfPrefix(data: Entries, prefix: Entries, n: nat)
    requires n <= |prefix| <= |data|
    requires forall i :: 0 <= i < |prefix| ==> data[i] == prefix[i]
    ensures FlattenPrefix(data, n) == FlattenPrefix(prefix, n)
  {
    if n > 0 {
      FlattenPrefixOfPrefix(data, prefix, n - 1);
    }
  }

  /** A context whose goal was never set yields no chunk for "current_goal":
      the chunks are the task list's, then the history's, then the variables'. */
  lemma ContextChunks(tasks: seq<Value>, history: seq<Value>, variables: Entries)
    ensures Flatten([("current_goal", Null), ("task_list", List(tasks)), ("history", List(history)), ("variables", Dict(variables))])
         == ValueChunks("task_list", List(tasks)) + ValueChunks("history", List(history)) + ValueChunks("variables", Dict(variables))
  {
    var d := [("current_goal", Null), ("task_list", List(tasks)), ("history", List(history)), ("variables", Dict(variables))];
    assert FlattenPrefix(d, 1) == [];
    assert FlattenPrefix(d, 2) == ValueChunks("task_list", List(tasks));
    assert FlattenPrefix(d, 3) == FlattenPrefix(d, 2) + ValueChunks("history", List(history));
  }
}
