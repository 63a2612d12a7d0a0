/** The sanitiser of event metadata (backend/app/agents/api.py). */
module SafeMetadata {
  import opened Signals

  const PUBLIC_KEYS: set<string> :=
    {"action_type", "allowed", "approval_id", "attempt", "blocked", "cancelled_by", "confidence",
     "context_characters", "duration_ms", "error_code", "execution_mode", "final_response_agent", "from",
     "llm_calls_used", "reason", "reason_codes", "recovery_policy", "requires_approval", "resolution",
     "resumed_after_approval", "retryable", "sequence", "steps_used", "task_count", "to", "tool_calls_used"}

  const MAX_DEPTH: nat := 3
  const MAX_STRING: nat := 500
  const MAX_ITEMS: nat := 32
  const MAX_ENTRIES: nat := 64
  const MAX_KEY: nat := 64
  const MAX_OTHER: nat := 200

  /** Any Python value: a dictionary lists its entries in insertion order, keys already
      rendered by `str`; `Other` is an object of another type, rendered by `str`. */
  datatype Value =
    | Null
    | Bool(flag: bool)
    | Number(literal: string)
    | Text(text: string)
    | List(items: seq<Value>)
    | Dict(entries: seq<Entry>)
    | Other(text: string)

  datatype Entry = Entry(key: string, value: Value)

  predicate Public(key: string) {
    key in PUBLIC_KEYS
  }

  function Cut(s: string, limit: nat): string {
    s[..Min(|s|, limit)]
  }

  /** `clean[key] = value`. */
  function Put(clean: seq<Entry>, key: string, value: Value): seq<Entry> {
    if clean == [] then [Entry(key, value)]
    else if clean[0].key == key then [Entry(key, value)] + clean[1..]
    else [clean[0]] + Put(clean[1..], key, value)
  }

  function Room(depth: nat): nat {
    if depth > MAX_DEPTH then 0 else MAX_DEPTH + 1 - depth
  }

  function Safe(v: Value, depth: nat): Value
    decreases Room(depth), MAX_ENTRIES + 1
  {
    if depth > MAX_DEPTH then Null
    else match v
      case Null => v
      case Bool(_) => v
      case Number(_) => v
      case Text(text) => Text(Cut(text, MAX_STRING))
      case List(items) => List(SafeItems(items, Min(|items|, MAX_ITEMS), depth))
      case Dict(entries) => Dict(SafeEntries(entries, Min(|entries|, MAX_ENTRIES), depth))
      case Other(text) => Text(Cut(text, MAX_OTHER))
  }

  /** The first n items, sanitised one level deeper. */
  function SafeItems(items: seq<Value>, n: nat, depth: nat): seq<Value>
    requires n <= |items| && depth <= MAX_DEPTH
    decreases Room(depth), n
  {
    if n == 0 then [] else SafeItems(items, n - 1, depth) + [Safe(items[n - 1], depth + 1)]
  }

  /** The public ones among the first n entries, sanitised one level deeper. */
  function SafeEntries(entries: seq<Entry>, n: nat, depth: nat): seq<Entry>
    requires n <= |entries| && depth <= MAX_DEPTH
    decreases Room(depth), n
  {
    if n == 0 then []
    else
      var clean := SafeEntries(entries, n - 1, depth);
      var key := Cut(entries[n - 1].key, MAX_KEY);
      if Public(key) then Put(clean, key, Safe(entries[n - 1].value, depth + 1)) else clean
  }

  predicate DistinctKeys(entries: seq<Entry>) {
    forall i, j :: 0 <= i < j < |entries| ==> entries[i].key != entries[j].key
  }

  /** What may leave the server from a given depth on: short strings, short lists, small
      dictionaries with public keys only, and no container below the fourth level. */
  predicate Bounded(v: Value, depth: nat)
    decreases Room(depth), 0
  {
    match v
    case Null => true
    case Bool(_) => depth <= MAX_DEPTH
    case Number(_) => depth <= MAX_DEPTH
    case Text(text) => depth <= MAX_DEPTH && |text| <= MAX_STRING
    case List(items) =>
      && depth <= MAX_DEPTH && |items| <= MAX_ITEMS
      && forall k :: 0 <= k < |items| ==> Bounded(items[k], depth + 1)
    case Dict(entries) =>
      && depth <= MAX_DEPTH && |entries| <= MAX_ENTRIES && DistinctKeys(entries)
      && forall k :: 0 <= k < |entries| ==> EntryOk(entries[k], depth)
    case Other(_) => false
  }

  predicate EntryOk(e: Entry, depth: nat)
    requires depth <= MAX_DEPTH
    decreases Room(depth + 1), 1
  {
    Public(e.key) && |e.key| <= MAX_KEY && Bounded(e.value, depth + 1)
  }

  lemma {:induction false} PutMembers(clean: seq<Entry>, key: string, value: Value)
    ensures |Put(clean, key, value)| <= |clean| + 1 && Entry(key, value) in Put(clean, key, value)
    ensures forall e :: e in Put(clean, key, value) ==> e in clean || e == Entry(key, value)
    ensures forall e :: e in clean && e.key != key ==> e in Put(clean, key, value)
    decreases |clean|
  {
    if clean != [] {
      PutMembers(clean[1..], key, value);
      assert clean == [clean[0]] + clean[1..];
    }
  }

  lemma DistinctMore(first: Entry, rest: seq<Entry>)
    requires DistinctKeys(rest) && forall e :: e in rest ==> e.key != first.key
    ensures DistinctKeys([first] + rest)
  {
    var all := [first] + rest;
    forall i, j | 0 <= i < j < |all|
      ensures all[i].key != all[j].key
    {
      assert all[j] == rest[j - 1] && rest[j - 1] in rest;
    }
  }

  lemma {:induction false} PutKeeps(clean: seq<Entry>, key: string, value: Value)
    requires DistinctKeys(clean)
    ensures DistinctKeys(Put(clean, key, value))
    ensures (forall e :: e in clean ==> e.key != key) ==> Put(clean, key, value) == clean + [Entry(key, value)]
    decreases |clean|
  {
    if clean != [] {
      assert DistinctKeys(clean[1..]);
      assert forall e :: e in clean[1..] ==> e.key != clean[0].key;
      assert clean == [clean[0]] + clean[1..];
      hide DistinctKeys;
      if clean[0].key == key {
        DistinctMore(Entry(key, value), clean[1..]);
      } else {
        PutKeeps(clean[1..], key, value);
        PutMembers(clean[1..], key, value);
        DistinctMore(clean[0], Put(clean[1..], key, value));
      }
    }
  }

  lemma {:induction false} ItemsBounded(items: seq<Value>, n: nat, depth: nat)
    requires n <= |items| && depth <= MAX_DEPTH
    ensures |SafeItems(items, n, depth)| == n
    ensures forall k :: 0 <= k < n ==> SafeItems(items, n, depth)[k] == Safe(items[k], depth + 1)
    ensures forall k :: 0 <= k < n ==> Bounded(SafeItems(items, n, depth)[k], depth + 1)
    decreases Room(depth), n
  {
    hide Bounded, Safe, SafeEntries;
    if n > 0 {
      ItemsBounded(items, n - 1, depth);
      SafeBounded(items[n - 1], depth + 1);
    }
  }

  lemma {:induction false} EntriesBounded(entries: seq<Entry>, n: nat, depth: nat)
    requires n <= |entries| && depth <= MAX_DEPTH
    ensures |SafeEntries(entries, n, depth)| <= n && DistinctKeys(SafeEntries(entries, n, depth))
    ensures forall e :: e in SafeEntries(entries, n, depth) ==> EntryOk(e, depth)
    decreases Room(depth), n
  {
    hide Bounded, DistinctKeys, Public;
    if n == 0 {
      assert DistinctKeys([]) by { NoKeys(); }
    } else {
      EntriesBounded(entries, n - 1, depth);
      SafeBounded(entries[n - 1].value, depth + 1);
      var clean, key := SafeEntries(entries, n - 1, depth), Cut(entries[n - 1].key, MAX_KEY);
      PutKeeps(clean, key, Safe(entries[n - 1].value, depth + 1));
      PutMembers(clean, key, Safe(entries[n - 1].value, depth + 1));
    }
  }

  lemma NoKeys()
    ensures DistinctKeys([])
  {
  }

  /** Whatever goes in, only bounded metadata with public keys comes out. */
  lemma {:induction false} SafeBounded(v: Value, depth: nat)
    ensures Bounded(Safe(v, depth), depth)
    decreases Room(depth), MAX_ENTRIES + 1
  {
    if depth <= MAX_DEPTH {
      match v
      case List(items) =>
        ItemsBounded(items, Min(|items|, MAX_ITEMS), depth);
      case Dict(entries) =>
        EntriesBounded(entries, Min(|entries|, MAX_ENTRIES), depth);
      case _ =>
    }
  }

  lemma {:induction false} ItemsStable(items: seq<Value>, n: nat, depth: nat)
    requires n <= |items| && depth <= MAX_DEPTH && forall k :: 0 <= k < n ==> Bounded(items[k], depth + 1)
    ensures SafeItems(items, n, depth) == items[..n]
    decreases Room(depth), n
  {
    hide Bounded;
    if n > 0 {
      ItemsStable(items, n - 1, depth);
      BoundedStable(items[n - 1], depth + 1);
    }
  }

  lemma {:induction false} EntriesStable(entries: seq<Entry>, n: nat, depth: nat)
    requires n <= |entries| && depth <= MAX_DEPTH && DistinctKeys(entries)
    requires forall k :: 0 <= k < n ==> EntryOk(entries[k], depth)
    ensures SafeEntries(entries, n, depth) == entries[..n]
    decreases Room(depth), n
  {
    hide Bounded, Public, Safe, Put;
    if n > 0 {
      var last := entries[n - 1];
      EntriesStable(entries, n - 1, depth);
      assert EntryOk(last, depth);
      BoundedStable(last.value, depth + 1);
      assert Cut(last.key, MAX_KEY) == last.key;
      PutKeeps(entries[..n - 1], last.key, last.value);
      assert entries[..n] == entries[..n - 1] + [Entry(last.key, last.value)];
    }
  }

  lemma {:induction false} BoundedStable(v: Value, depth: nat)
    requires Bounded(v, depth)
    ensures Safe(v, depth) == v
    decreases Room(depth), |if v.List? then v.items else []| + |if v.Dict? then v.entries else []| + 1
  {
    if depth <= MAX_DEPTH {
      match v
      case List(items) =>
        ItemsStable(items, |items|, depth);
      case Dict(entries) =>
        EntriesStable(entries, |entries|, depth);
      case _ =>
    }
  }

  /** Sanitising twice changes nothing, and leaves alone exactly what is already safe. */
  lemma SafeIdempotent(v: Value, depth: nat)
    ensures Safe(Safe(v, depth), depth) == Safe(v, depth)
    ensures Safe(v, depth) == v <==> Bounded(v, depth)
  {
    SafeBounded(v, depth);
    BoundedStable(Safe(v, depth), depth);
    if Bounded(v, depth) {
      BoundedStable(v, depth);
    }
  }

  lemma {:induction false} EntriesKept(entries: seq<Entry>, n: nat, depth: nat, i: nat)
    requires i < n <= |entries| && depth <= MAX_DEPTH && DistinctKeys(entries)
    requires Public(entries[i].key) && |entries[i].key| < MAX_KEY
    ensures Entry(entries[i].key, Safe(entries[i].value, depth + 1)) in SafeEntries(entries, n, depth)
    decreases n
  {
    hide Public, Safe;
    var last := entries[n - 1];
    PutMembers(SafeEntries(entries, n - 1, depth), Cut(last.key, MAX_KEY), Safe(last.value, depth + 1));
    assert Cut(entries[i].key, MAX_KEY) == entries[i].key;
    if i < n - 1 {
      EntriesKept(entries, n - 1, depth, i);
    }
  }

  /** Nothing public is lost within the limits: the first items of a list and the public
      entries among the first of a dictionary survive, themselves sanitised. */
  lemma SafeKeeps(v: Value, depth: nat, i: nat)
    requires depth <= MAX_DEPTH
    ensures v.List? && i < Min(|v.items|, MAX_ITEMS) ==>
              Safe(v, depth).List? && |Safe(v, depth).items| == Min(|v.items|, MAX_ITEMS)
              && Safe(v, depth).items[i] == Safe(v.items[i], depth + 1)
    ensures v.Dict? && DistinctKeys(v.entries) && i < Min(|v.entries|, MAX_ENTRIES)
            && Public(v.entries[i].key) && |v.entries[i].key| < MAX_KEY ==>
              Safe(v, depth).Dict?
              && Entry(v.entries[i].key, Safe(v.entries[i].value, depth + 1)) in Safe(v, depth).entries
  {
    hide Public;
    if v.List? {
      ItemsBounded(v.items, Min(|v.items|, MAX_ITEMS), depth);
    }
    if v.Dict? && DistinctKeys(v.entries) && i < Min(|v.entries|, MAX_ENTRIES)
       && Public(v.entries[i].key) && |v.entries[i].key| < MAX_KEY {
      EntriesKept(v.entries, Min(|v.entries|, MAX_ENTRIES), depth, i);
    }
  }

  // --- What comes out, level by level ------------------------------------------------------

  /** `r` is the text, or its beginning of `limit` characters if it is longer. */
  predicate Beginning(text: string, limit: nat, r: string) {
    r <= text && |r| == if |text| <= limit then |text| else limit
  }

  /** Entry i is the last of the first n whose shortened key is `key`. */
  predicate Decides(entries: seq<Entry>, n: nat, i: nat, key: string)
    requires n <= |entries|
  {
    && i < n && Beginning(entries[i].key, 64, key)
    && forall j :: i < j < n ==> !Beginning(entries[j].key, 64, key)
  }

  ghost predicate Stems(entries: seq<Entry>, n: nat, e: Entry, depth: nat)
    requires n <= |entries|
  {
    exists i: nat :: Decides(entries, n, i, e.key) && e.value == Safe(entries[i].value, depth + 1)
  }

  /** The entries of a sanitised dictionary are those of the public keys, each with the value
      of the last entry that is written under it. */
  ghost predicate Cleaned(entries: seq<Entry>, n: nat, clean: seq<Entry>, depth: nat)
    requires n <= |entries|
  {
    forall e :: e in clean <==> e.key in PUBLIC_KEYS && Stems(entries, n, e, depth)
  }

  lemma StemsMore(entries: seq<Entry>, n: nat, e: Entry, depth: nat)
    requires 0 < n <= |entries|
    ensures Stems(entries, n, e, depth) <==>
              if Beginning(entries[n - 1].key, 64, e.key) then e.value == Safe(entries[n - 1].value, depth + 1)
              else Stems(entries, n - 1, e, depth)
  {
    hide Safe, Beginning;
    if Beginning(entries[n - 1].key, 64, e.key) {
      assert Decides(entries, n, n - 1, e.key);
    }
    if i: nat :| Decides(entries, n - 1, i, e.key) && e.value == Safe(entries[i].value, depth + 1) {
      if !Beginning(entries[n - 1].key, 64, e.key) {
        assert Decides(entries, n, i, e.key);
      }
    }
    if i: nat :| Decides(entries, n, i, e.key) && e.value == Safe(entries[i].value, depth + 1) {
      if i < n - 1 {
        assert Decides(entries, n - 1, i, e.key);
      }
    }
  }

  lemma {:induction false} PutReplaces(clean: seq<Entry>, key: string, value: Value)
    requires DistinctKeys(clean)
    ensures forall e :: e in Put(clean, key, value) <==> e == Entry(key, value) || (e in clean && e.key != key)
    decreases |clean|
  {
    if clean != [] {
      assert clean == [clean[0]] + clean[1..];
      assert forall e :: e in clean[1..] ==> e.key != clean[0].key;
      PutReplaces(clean[1..], key, value);
    }
  }

  lemma {:induction false} EntriesCleaned(entries: seq<Entry>, n: nat, depth: nat)
    requires n <= |entries| && depth <= MAX_DEPTH
    ensures Cleaned(entries, n, SafeEntries(entries, n, depth), depth)
    decreases n
  {
    hide Safe, Stems, DistinctKeys;
    if n == 0 {
      NoStems(entries, depth);
    } else {
      var last := entries[n - 1];
      var clean, cut := SafeEntries(entries, n - 1, depth), Cut(last.key, MAX_KEY);
      EntriesCleaned(entries, n - 1, depth);
      EntriesBounded(entries, n - 1, depth);
      PutReplaces(clean, cut, Safe(last.value, depth + 1));
      forall e
        ensures e in SafeEntries(entries, n, depth) <==> e.key in PUBLIC_KEYS && Stems(entries, n, e, depth)
      {
        StemsMore(entries, n, e, depth);
        assert Beginning(last.key, 64, e.key) <==> e.key == cut;
        assert e in clean <==> e.key in PUBLIC_KEYS && Stems(entries, n - 1, e, depth);
      }
    }
  }

  lemma NoStems(entries: seq<Entry>, depth: nat)
    ensures forall e :: !Stems(entries, 0, e, depth)
  {
  }

  /** Below the fourth level nothing is left. Above it texts keep their first 500 characters,
      other objects 200, lists their first 32 items, and dictionaries the public keys among
      their first 64 entries. */
  lemma SafeIs(v: Value, depth: nat)
    ensures depth > 3 ==> Safe(v, depth) == Null
    ensures depth <= 3 ==>
              match (v, Safe(v, depth))
              case (Text(text), Text(r)) => Beginning(text, 500, r)
              case (Other(text), Text(r)) => Beginning(text, 200, r)
              case (List(items), List(kept)) =>
                && |kept| == Min(|items|, 32)
                && forall i :: 0 <= i < |kept| ==> kept[i] == Safe(items[i], depth + 1)
              case (Dict(entries), Dict(clean)) =>
                && DistinctKeys(clean) && Cleaned(entries, Min(|entries|, 64), clean, depth)
              case (Null, r) => r == v
              case (Bool(_), r) => r == v
              case (Number(_), r) => r == v
              case _ => false
  {
    hide Cleaned;
    if depth <= 3 {
      match v
      case List(items) => ItemsBounded(items, Min(|items|, 32), depth);
      case Dict(entries) =>
        EntriesBounded(entries, Min(|entries|, 64), depth);
        EntriesCleaned(entries, Min(|entries|, 64), depth);
      case _ =>
    }
  }
}
