/**
 * Assembling the pipeline (`s2s_pipeline.py`): how `rename_args` rewrites a
 * stage's argument namespace, how the arguments are read (a JSON file or the
 * command line), the stop event and queues the stages share, and which stages
 * `build_pipeline` wires to which queues.
 */
module S2sPipeline {
  import opened Wrappers
  import opened PyValues
  import MeloTts

  /** `s.startswith(prefix)`. */
  predicate StartsWith(s: string, prefix: string)
  {
    |prefix| <= |s| && s[..|prefix|] == prefix
  }

  /** `s.endswith(suffix)`. */
  predicate EndsWith(s: string, suffix: string)
  {
    |suffix| <= |s| && s[|s| - |suffix|..] == suffix
  }

  /** No key appears twice. */
  predicate Distinct(keys: seq<string>)
  {
    forall i, j :: 0 <= i < j < |keys| ==> keys[i] != keys[j]
  }

  // ---------------------------------------------------------------------------
  // rename_args
  // ---------------------------------------------------------------------------

  /** `key[len(prefix) + 1:]`: the key without the prefix and the one separator
      character after it; Python's slice gives `""` when the key is too short. */
  function Stripped(key: string, prefix: string): (name: string)
    ensures |prefix| < |key| ==> key == key[..|prefix| + 1] + name
    ensures |key| <= |prefix| + 1 ==> name == ""
  {
    if |prefix| + 1 <= |key| then key[|prefix| + 1..] else ""
  }

  /** A key whose stripped name starts with `gen_`: its value goes to `gen_kwargs`. */
  predicate Routed(key: string, prefix: string)
  {
    StartsWith(key, prefix) && StartsWith(Stripped(key, prefix), "gen_")
  }

  /** A key whose value moves to its stripped name. */
  predicate Moves(key: string, prefix: string)
  {
    StartsWith(key, prefix) && !StartsWith(Stripped(key, prefix), "gen_")
  }

  /** The `gen_kwargs` entry a routed key fills: the stripped name without `gen_`. */
  function GenName(key: string, prefix: string): string
    requires Routed(key, prefix)
  {
    Stripped(key, prefix)[4..]
  }

  /** An attribute dictionary (`args.__dict__`): its keys in insertion order, and
      the value of each. */
  datatype Args = Args(keys: seq<string>, entries: map<string, Value>)

  /** The keys listed are exactly the keys present, each once. */
  ghost predicate WellFormed(a: Args)
  {
    && Distinct(a.keys)
    && (forall k :: k in a.entries <==> k in a.keys)
  }

  /** The keys without `k`, in the same order. */
  function Remove(keys: seq<string>, k: string): (r: seq<string>)
    ensures forall x :: x in r <==> x in keys && x != k
    ensures Distinct(keys) ==> Distinct(r)
  {
    if keys == [] then []
    else
      var rest := Remove(keys[1..], k);
      assert Distinct(keys) ==> keys[0] !in keys[1..];
      (if keys[0] == k then [] else [keys[0]]) + rest
  }

  /** `d.pop(k)` without the value. */
  function Pop(a: Args, k: string): Args
  {
    Args(Remove(a.keys, k), a.entries - {k})
  }

  /** `d[k] = v`: an existing key keeps its place, a new one goes last. */
  function Put(a: Args, k: string, v: Value): Args
  {
    Args(if k in a.entries then a.keys else a.keys + [k], a.entries[k := v])
  }

  /** Popping a key keeps the dictionary well formed. */
  lemma PopKeepsWellFormed(a: Args, k: string)
    requires WellFormed(a)
    ensures WellFormed(Pop(a, k))
  {
  }

  /** Assigning a key keeps the dictionary well formed. */
  lemma PutKeepsWellFormed(a: Args, k: string, v: Value)
    requires WellFormed(a)
    ensures WellFormed(Put(a, k, v))
  {
    if k !in a.entries {
      assert k !in a.keys;
    }
  }

  /** One turn of the `for key in copy(args.__dict__)` loop, on the dictionary
      and on the `gen_kwargs` collected so far. */
  function RenameStep(a: Args, gen: map<string, Value>, prefix: string, key: string): (Args, map<string, Value>)
    requires key in a.entries
  {
    if !StartsWith(key, prefix) then (a, gen)
    else
      var val := a.entries[key];
      var popped := Pop(a, key);
      var name := Stripped(key, prefix);
      if StartsWith(name, "gen_") then (popped, gen[name[4..] := val])
      else (Put(popped, name, val), gen)
  }

  /** One turn pops the key when it has the prefix, writes only its stripped
      name or its `gen_kwargs` entry, and leaves every other name alone. */
  lemma RenameStepFacts(a: Args, gen: map<string, Value>, prefix: string, key: string)
    requires key in a.entries
    ensures WellFormed(a) ==> WellFormed(RenameStep(a, gen, prefix, key).0)
    ensures var e := RenameStep(a, gen, prefix, key).0.entries;
      forall n :: n != key && !(Moves(key, prefix) && n == Stripped(key, prefix)) ==>
        (n in e <==> n in a.entries) && (n in a.entries ==> e[n] == a.entries[n])
    ensures var e := RenameStep(a, gen, prefix, key).0.entries;
      StartsWith(key, prefix) ==> key !in e || (Moves(key, prefix) && key == Stripped(key, prefix))
    ensures var e := RenameStep(a, gen, prefix, key).0.entries;
      Moves(key, prefix) ==> Stripped(key, prefix) in e && e[Stripped(key, prefix)] == a.entries[key]
    ensures Routed(key, prefix) ==> RenameStep(a, gen, prefix, key).1 == gen[GenName(key, prefix) := a.entries[key]]
    ensures !Routed(key, prefix) ==> RenameStep(a, gen, prefix, key).1 == gen
  {
    if WellFormed(a) && StartsWith(key, prefix) {
      PopKeepsWellFormed(a, key);
      PutKeepsWellFormed(Pop(a, key), Stripped(key, prefix), a.entries[key]);
    }
  }

  /** The loop over the keys still to visit, in snapshot order. */
  function RenameAll(a: Args, gen: map<string, Value>, prefix: string, pending: seq<string>): (r: (Args, map<string, Value>))
    requires Distinct(pending) && forall j :: 0 <= j < |pending| ==> pending[j] in a.entries
    ensures WellFormed(a) ==> WellFormed(r.0)
    decreases |pending|
  {
    if pending == [] then (a, gen)
    else
      var s := RenameStep(a, gen, prefix, pending[0]);
      RenameStepFacts(a, gen, prefix, pending[0]);
      assert forall j :: 1 <= j < |pending| ==> pending[j] != pending[0];
      RenameAll(s.0, s.1, prefix, pending[1..])
  }

  /** `rename_args(args, prefix)`: the loop over a snapshot of the keys, then
      `args.__dict__["gen_kwargs"] = gen_kwargs`. */
  function Renamed(a: Args, prefix: string): (r: Args)
    requires WellFormed(a)
    ensures WellFormed(r)
    ensures "gen_kwargs" in r.entries && r.entries["gen_kwargs"].Dict?
  {
    var s := RenameAll(a, map[], prefix, a.keys);
    Put(s.0, "gen_kwargs", Dict(s.1))
  }

  /** The loop over `pending` is one turn on its first key, then the loop over
      the rest. */
  lemma RenameAllStep(a: Args, gen: map<string, Value>, prefix: string, pending: seq<string>)
    requires pending != [] && Distinct(pending) && forall j :: 0 <= j < |pending| ==> pending[j] in a.entries
    ensures Distinct(pending[1..])
    ensures forall j :: 0 <= j < |pending[1..]| ==> pending[1..][j] in RenameStep(a, gen, prefix, pending[0]).0.entries
    ensures var s := RenameStep(a, gen, prefix, pending[0]);
      RenameAll(a, gen, prefix, pending) == RenameAll(s.0, s.1, prefix, pending[1..])
  {
    RenameStepFacts(a, gen, prefix, pending[0]);
    assert forall j :: 1 <= j < |pending| ==> pending[j] != pending[0];
  }

  /** Some key among `pending` moves its value to `name`. */
  predicate WritesTo(pending: seq<string>, prefix: string, name: string)
  {
    exists j :: 0 <= j < |pending| && Moves(pending[j], prefix) && Stripped(pending[j], prefix) == name
  }

  /** Some key among `pending` fills the `gen_kwargs` entry `g`. */
  predicate RoutesTo(pending: seq<string>, prefix: string, g: string)
  {
    exists j :: 0 <= j < |pending| && Routed(pending[j], prefix) && GenName(pending[j], prefix) == g
  }

  /** Some key from the current one on writes `name` exactly when the current
      one does or a later one does. */
  lemma WritesToCons(pending: seq<string>, prefix: string, name: string)
    requires pending != []
    ensures WritesTo(pending, prefix, name)
        <==> (Moves(pending[0], prefix) && Stripped(pending[0], prefix) == name) || WritesTo(pending[1..], prefix, name)
  {
    if WritesTo(pending[1..], prefix, name) {
      var j :| 0 <= j < |pending[1..]| && Moves(pending[1..][j], prefix) && Stripped(pending[1..][j], prefix) == name;
      assert pending[j + 1] == pending[1..][j];
    }
    if WritesTo(pending, prefix, name) {
      var j :| 0 <= j < |pending| && Moves(pending[j], prefix) && Stripped(pending[j], prefix) == name;
      if j > 0 {
        assert pending[1..][j - 1] == pending[j];
      }
    }
  }

  /** Some key from the current one on routes to `g` exactly when the current
      one does or a later one does. */
  lemma RoutesToCons(pending: seq<string>, prefix: string, g: string)
    requires pending != []
    ensures RoutesTo(pending, prefix, g)
        <==> (Routed(pending[0], prefix) && GenName(pending[0], prefix) == g) || RoutesTo(pending[1..], prefix, g)
  {
    if RoutesTo(pending[1..], prefix, g) {
      var j :| 0 <= j < |pending[1..]| && Routed(pending[1..][j], prefix) && GenName(pending[1..][j], prefix) == g;
      assert pending[j + 1] == pending[1..][j];
    }
    if RoutesTo(pending, prefix, g) {
      var j :| 0 <= j < |pending| && Routed(pending[j], prefix) && GenName(pending[j], prefix) == g;
      if j > 0 {
        assert pending[1..][j - 1] == pending[j];
      }
    }
  }

  /** A name that no visited key is and no visited key moves to keeps its
      presence and its value. */
  lemma {:induction false} RenameAllKeeps(a: Args, gen: map<string, Value>, prefix: string, pending: seq<string>, name: string)
    requires Distinct(pending) && forall j :: 0 <= j < |pending| ==> pending[j] in a.entries
    requires !(name in pending && StartsWith(name, prefix)) && !WritesTo(pending, prefix, name)
    ensures var r := RenameAll(a, gen, prefix, pending);
      && (name in r.0.entries <==> name in a.entries)
      && (name in a.entries ==> r.0.entries[name] == a.entries[name])
    decreases |pending|
  {
    if pending != [] {
      var s := RenameStep(a, gen, prefix, pending[0]);
      RenameStepFacts(a, gen, prefix, pending[0]);
      assert forall j :: 1 <= j < |pending| ==> pending[j] != pending[0];
      WritesToCons(pending, prefix, name);
      RenameAllKeeps(s.0, s.1, prefix, pending[1..], name);
    }
  }

  /** The `gen_kwargs` entries are those collected before plus one per routed
      key visited; an entry no visited key routes to keeps its value. */
  lemma {:induction false} RenameAllGen(a: Args, gen: map<string, Value>, prefix: string, pending: seq<string>, g: string)
    requires Distinct(pending) && forall j :: 0 <= j < |pending| ==> pending[j] in a.entries
    ensures var r := RenameAll(a, gen, prefix, pending);
      && (g in r.1 <==> g in gen || RoutesTo(pending, prefix, g))
      && (!RoutesTo(pending, prefix, g) && g in gen ==> r.1[g] == gen[g])
    decreases |pending|
  {
    if pending != [] {
      var s := RenameStep(a, gen, prefix, pending[0]);
      RenameStepFacts(a, gen, prefix, pending[0]);
      assert forall j :: 1 <= j < |pending| ==> pending[j] != pending[0];
      RoutesToCons(pending, prefix, g);
      RenameAllGen(s.0, s.1, prefix, pending[1..], g);
    }
  }

  /** A prefixed key is gone at the end unless some visited key moves its value
      back onto that name. */
  lemma {:induction false} RenameAllRemoves(a: Args, gen: map<string, Value>, prefix: string, pending: seq<string>, name: string)
    requires Distinct(pending) && forall j :: 0 <= j < |pending| ==> pending[j] in a.entries
    requires name in pending && StartsWith(name, prefix) && !WritesTo(pending, prefix, name)
    ensures name !in RenameAll(a, gen, prefix, pending).0.entries
    decreases |pending|
  {
    var s := RenameStep(a, gen, prefix, pending[0]);
    RenameStepFacts(a, gen, prefix, pending[0]);
    assert forall j :: 1 <= j < |pending| ==> pending[j] != pending[0];
    WritesToCons(pending, prefix, name);
    if pending[0] == name {
      RenameAllKeeps(s.0, s.1, prefix, pending[1..], name);
    } else {
      RenameAllRemoves(s.0, s.1, prefix, pending[1..], name);
    }
  }

  /** The value of a moved key reaches its stripped name when no other visited
      key writes that name, the name is not itself a prefixed key still to be
      visited, and nothing overwrote the key before it was visited. */
  lemma {:induction false} RenameAllMoves(a: Args, gen: map<string, Value>, prefix: string, pending: seq<string>, key: string)
    requires Distinct(pending) && forall j :: 0 <= j < |pending| ==> pending[j] in a.entries
    requires key in pending && Moves(key, prefix)
    requires forall j :: 0 <= j < |pending| && Moves(pending[j], prefix) && Stripped(pending[j], prefix) == Stripped(key, prefix)
               ==> pending[j] == key
    requires !(Stripped(key, prefix) in pending && StartsWith(Stripped(key, prefix), prefix))
    requires !WritesTo(pending, prefix, key)
    ensures var r := RenameAll(a, gen, prefix, pending);
      Stripped(key, prefix) in r.0.entries && r.0.entries[Stripped(key, prefix)] == a.entries[key]
    decreases |pending|
  {
    var name := Stripped(key, prefix);
    var s := RenameStep(a, gen, prefix, pending[0]);
    RenameStepFacts(a, gen, prefix, pending[0]);
    assert forall j :: 1 <= j < |pending| ==> pending[j] != pending[0];
    WritesToCons(pending, prefix, key);
    assert forall j :: 0 <= j < |pending[1..]| ==> pending[1..][j] == pending[j + 1];
    if pending[0] == key {
      RenameAllKeeps(s.0, s.1, prefix, pending[1..], name);
    } else {
      RenameAllMoves(s.0, s.1, prefix, pending[1..], key);
    }
  }

  /** The value of a routed key reaches its `gen_kwargs` entry when no other
      visited key routes there and nothing overwrote the key before it was
      visited. */
  lemma {:induction false} RenameAllRoutes(a: Args, gen: map<string, Value>, prefix: string, pending: seq<string>, key: string)
    requires Distinct(pending) && forall j :: 0 <= j < |pending| ==> pending[j] in a.entries
    requires key in pending && Routed(key, prefix)
    requires forall j :: 0 <= j < |pending| && Routed(pending[j], prefix) && GenName(pending[j], prefix) == GenName(key, prefix)
               ==> pending[j] == key
    requires !WritesTo(pending, prefix, key)
    ensures var r := RenameAll(a, gen, prefix, pending);
      GenName(key, prefix) in r.1 && r.1[GenName(key, prefix)] == a.entries[key]
    decreases |pending|
  {
    var g := GenName(key, prefix);
    var s := RenameStep(a, gen, prefix, pending[0]);
    RenameStepFacts(a, gen, prefix, pending[0]);
    assert forall j :: 1 <= j < |pending| ==> pending[j] != pending[0];
    WritesToCons(pending, prefix, key);
    assert forall j :: 0 <= j < |pending[1..]| ==> pending[1..][j] == pending[j + 1];
    if pending[0] == key {
      RenameAllGen(s.0, s.1, prefix, pending[1..], g);
    } else {
      RenameAllRoutes(s.0, s.1, prefix, pending[1..], key);
    }
  }

  /** Afterwards `gen_kwargs` is always a dictionary holding one entry per
      `gen_` name collected, and nothing else; an earlier `gen_kwargs` is
      replaced. */
  lemma RenameArgsGenKwargs(a: Args, prefix: string, g: string)
    requires WellFormed(a)
    ensures g in Renamed(a, prefix).entries["gen_kwargs"].entries <==> RoutesTo(a.keys, prefix, g)
  {
    RenameAllGen(a, map[], prefix, a.keys, g);
  }

  /** A routed key's value is filed in `gen_kwargs` under its name without
      `gen_` (when it is the only key routed there and no key moved onto it). */
  lemma RenameArgsRoutesGen(a: Args, prefix: string, key: string)
    requires WellFormed(a) && key in a.entries && Routed(key, prefix)
    requires forall j :: 0 <= j < |a.keys| && Routed(a.keys[j], prefix) && GenName(a.keys[j], prefix) == GenName(key, prefix)
               ==> a.keys[j] == key
    requires !WritesTo(a.keys, prefix, key)
    ensures var gen := Renamed(a, prefix).entries["gen_kwargs"].entries;
      GenName(key, prefix) in gen && gen[GenName(key, prefix)] == a.entries[key]
  {
    RenameAllRoutes(a, map[], prefix, a.keys, key);
  }

  /** A prefixed key is popped: it is gone afterwards unless a stripped name
      recreates it. */
  lemma RenameArgsPopsPrefixed(a: Args, prefix: string, key: string)
    requires WellFormed(a) && key in a.entries && StartsWith(key, prefix)
    requires key != "gen_kwargs" && !WritesTo(a.keys, prefix, key)
    ensures key !in Renamed(a, prefix).entries
  {
    RenameAllRemoves(a, map[], prefix, a.keys, key);
  }

  /** A prefixed key's value reappears under its stripped name (when that name
      is written by no other key, is not an original prefixed key, and is not
      `gen_kwargs`). In particular a new key that starts with the prefix is not
      visited again: the loop runs over a snapshot. */
  lemma RenameArgsMovesValue(a: Args, prefix: string, key: string)
    requires WellFormed(a) && key in a.entries && Moves(key, prefix)
    requires forall j :: 0 <= j < |a.keys| && Moves(a.keys[j], prefix) && Stripped(a.keys[j], prefix) == Stripped(key, prefix)
               ==> a.keys[j] == key
    requires !(Stripped(key, prefix) in a.entries && StartsWith(Stripped(key, prefix), prefix))
    requires Stripped(key, prefix) != "gen_kwargs" && !WritesTo(a.keys, prefix, key)
    ensures var r := Renamed(a, prefix);
      Stripped(key, prefix) in r.entries && r.entries[Stripped(key, prefix)] == a.entries[key]
  {
    RenameAllMoves(a, map[], prefix, a.keys, key);
  }

  /** Every other name (not a prefixed key, not written by a stripped name, not
      `gen_kwargs`) keeps its presence and its value. */
  lemma RenameArgsKeepsOthers(a: Args, prefix: string, name: string)
    requires WellFormed(a)
    requires !(name in a.entries && StartsWith(name, prefix))
    requires name != "gen_kwargs" && !WritesTo(a.keys, prefix, name)
    ensures var r := Renamed(a, prefix);
      && (name in r.entries <==> name in a.entries)
      && (name in a.entries ==> r.entries[name] == a.entries[name])
  {
    RenameAllKeeps(a, map[], prefix, a.keys, name);
  }

  /** A namespace produced by the argument parser (`args`), whose attribute
      dictionary `rename_args` rewrites in place. */
  class Namespace {
    var keys: seq<string>
    var entries: map<string, Value>

    ghost predicate Valid()
      reads this
    {
      WellFormed(Args(keys, entries))
    }

    constructor(a: Args)
      requires WellFormed(a)
      ensures Valid() && keys == a.keys && entries == a.entries
    {
      keys := a.keys;
      entries := a.entries;
    }

    /** One turn of the loop: pop `key` when it has the prefix and put its value
        under the stripped name, or into the `gen_kwargs` being collected. */
    method RenameKey(prefix: string, key: string, gen: map<string, Value>) returns (gen': map<string, Value>)
      requires Valid() && key in entries
      modifies this
      ensures Valid()
      ensures (Args(keys, entries), gen') == RenameStep(Args(old(keys), old(entries)), gen, prefix, key)
    {
      gen' := gen;
      if StartsWith(key, prefix) {
        ghost var before := Args(keys, entries);
        var val := entries[key];
        keys := Remove(keys, key);
        entries := entries - {key};
        PopKeepsWellFormed(before, key);
        var newKey := Stripped(key, prefix);
        if StartsWith(newKey, "gen_") {
          gen' := gen[newKey[4..] := val];
        } else {
          ghost var popped := Args(keys, entries);
          if newKey !in entries {
            keys := keys + [newKey];
          }
          entries := entries[newKey := val];
          PutKeepsWellFormed(popped, newKey, val);
        }
      }
    }

    /** `rename_args(args, prefix)`. */
    method RenameArgs(prefix: string)
      requires Valid()
      modifies this
      ensures Valid()
      ensures Args(keys, entries) == Renamed(Args(old(keys), old(entries)), prefix)
    {
      var snapshot := keys;
      var gen: map<string, Value> := map[];
      var i := 0;
      while i < |snapshot|
        invariant 0 <= i <= |snapshot|
        invariant Valid()
        invariant Distinct(snapshot[i..])
        invariant forall j :: 0 <= j < |snapshot[i..]| ==> snapshot[i..][j] in entries
        invariant RenameAll(Args(keys, entries), gen, prefix, snapshot[i..])
               == RenameAll(Args(old(keys), old(entries)), map[], prefix, snapshot)
      {
        var key := snapshot[i];
        RenameAllStep(Args(keys, entries), gen, prefix, snapshot[i..]);
        assert snapshot[i..][0] == key && snapshot[i..][1..] == snapshot[i + 1..];
        gen := RenameKey(prefix, key, gen);
        i := i + 1;
      }
      assert snapshot[i..] == [];
      if "gen_kwargs" !in entries {
        keys := keys + ["gen_kwargs"];
      }
      entries := entries["gen_kwargs" := Dict(gen)];
    }
  }

  // ---------------------------------------------------------------------------
  // parse_arguments
  // ---------------------------------------------------------------------------

  /** Where the stage arguments come from. */
  datatype ArgumentSource = JsonFile(path: string) | CommandLine(flags: seq<string>)

  /** The choice `parse_arguments` makes on `sys.argv`; `abspath` is
      `os.path.abspath`, which depends on the working directory. */
  function ParseArguments(argv: seq<string>, abspath: string -> string): (src: ArgumentSource)
    ensures src.JsonFile? <==> |argv| == 2 && EndsWith(argv[1], ".json")
    ensures src.JsonFile? ==> src.path == abspath(argv[1])
    ensures src.CommandLine? ==> src.flags == if argv == [] then [] else argv[1..]
  {
    if |argv| == 2 && EndsWith(argv[1], ".json") then JsonFile(abspath(argv[1]))
    else CommandLine(if argv == [] then [] else argv[1..])
  }

  // ---------------------------------------------------------------------------
  // initialize_queues_and_events
  // ---------------------------------------------------------------------------

  /** What travels on the queues: raw bytes, audio samples, or text. */
  datatype Payload = Bytes(data: seq<bv8>) | Samples(pcm: seq<int>) | Text(text: string)

  /** `threading.Event`. */
  class Event {
    var isSet: bool

    constructor()
      ensures !isSet
    {
      isSet := false;
    }
  }

  /** `queue.Queue`, with `None` as the sentinel. */
  class Queue {
    var items: seq<Option<Payload>>

    constructor()
      ensures items == []
    {
      items := [];
    }
  }

  /** The dictionary `initialize_queues_and_events` returns. */
  datatype EventsAndQueues = EventsAndQueues(stopEvent: Event, recvQ: Queue, sendQ: Queue,
                                             spokenQ: Queue, textQ: Queue, lmQ: Queue)

  /** The five queues are five different objects. */
  predicate DistinctQueues(eq: EventsAndQueues)
  {
    && eq.recvQ != eq.sendQ && eq.recvQ != eq.spokenQ && eq.recvQ != eq.textQ && eq.recvQ != eq.lmQ
    && eq.sendQ != eq.spokenQ && eq.sendQ != eq.textQ && eq.sendQ != eq.lmQ
    && eq.spokenQ != eq.textQ && eq.spokenQ != eq.lmQ
    && eq.textQ != eq.lmQ
  }

  /** `initialize_queues_and_events()`: one clear stop event and five new,
      empty, distinct queues. */
  method InitializeQueuesAndEvents() returns (eq: EventsAndQueues)
    ensures fresh(eq.stopEvent) && !eq.stopEvent.isSet
    ensures fresh(eq.recvQ) && fresh(eq.sendQ) && fresh(eq.spokenQ) && fresh(eq.textQ) && fresh(eq.lmQ)
    ensures eq.recvQ.items == [] && eq.sendQ.items == [] && eq.spokenQ.items == []
    ensures eq.textQ.items == [] && eq.lmQ.items == []
    ensures DistinctQueues(eq)
  {
    var stopEvent := new Event();
    var recvQ := new Queue();
    var sendQ := new Queue();
    var spokenQ := new Queue();
    var textQ := new Queue();
    var lmQ := new Queue();
    eq := EventsAndQueues(stopEvent, recvQ, sendQ, spokenQ, textQ, lmQ);
  }

  // ---------------------------------------------------------------------------
  // build_pipeline
  // ---------------------------------------------------------------------------

  /** The fields of `ModuleArguments` that `build_pipeline` reads. */
  datatype ModuleArguments = ModuleArguments(mode: string)

  /** `SocketReceiverArguments`. */
  datatype SocketReceiverArguments = SocketReceiverArguments(recvHost: string, recvPort: int, chunkSize: int)

  /** `SocketSenderArguments`. */
  datatype SocketSenderArguments = SocketSenderArguments(sendHost: string, sendPort: int)

  /** Which handler a thread runs, with its own settings. */
  datatype Role =
    | Loopback
    | SocketReceiver(host: string, port: int, chunkSize: int)
    | SocketSender(host: string, port: int)
    | Vad(vadKwargs: Kwargs)
    | Stt(sttKwargs: Kwargs)
    | LanguageModel(lmKwargs: Kwargs)
    | Tts(ttsKwargs: Kwargs)

  /** One pipeline thread: its handler, the stop event it watches, and the queues
      it takes from and puts to. */
  datatype Stage = Stage(role: Role, stopEvent: Event, queueIn: Option<Queue>, queueOut: Option<Queue>)

  /** Why `build_pipeline` raised. */
  datatype BuildError = MissingArgument(name: string) | SetupRejected(stage: string)

  /** VAD, STT, LM and TTS after the communication stages; constructing the TTS
      handler runs its `setup(**vars(melo_kwargs))`. */
  function Handlers(comms: seq<Stage>, vad: Kwargs, whisper: Kwargs, lm: Kwargs, melo: Kwargs,
                    eq: EventsAndQueues): (r: Result<seq<Stage>, BuildError>)
    ensures r.Ok? <==> MeloTts.MeloSetupAccepts(melo)
    ensures r.Ok? ==> |r.value| == |comms| + 4 && r.value[..|comms|] == comms
    ensures r.Ok? ==> forall i :: |comms| <= i < |r.value| ==> r.value[i].stopEvent == eq.stopEvent
  {
    if !MeloTts.MeloSetupAccepts(melo) then Err(SetupRejected("tts"))
    else Ok(comms + [
      Stage(Vad(vad), eq.stopEvent, Some(eq.recvQ), Some(eq.spokenQ)),
      Stage(Stt(whisper), eq.stopEvent, Some(eq.spokenQ), Some(eq.textQ)),
      Stage(LanguageModel(lm), eq.stopEvent, Some(eq.textQ), Some(eq.lmQ)),
      Stage(Tts(melo), eq.stopEvent, Some(eq.lmQ), Some(eq.sendQ))])
  }

  /** The two socket stages of any mode but `"local"`. */
  function SocketComms(recvArgs: SocketReceiverArguments, sendArgs: SocketSenderArguments, eq: EventsAndQueues): seq<Stage>
  {
    [Stage(SocketReceiver(recvArgs.recvHost, recvArgs.recvPort, recvArgs.chunkSize), eq.stopEvent, None, Some(eq.recvQ)),
     Stage(SocketSender(sendArgs.sendHost, sendArgs.sendPort), eq.stopEvent, Some(eq.sendQ), None)]
  }

  /** `build_pipeline(...)` as written. `unused` holds the Paraformer,
      FasterWhisper, OpenAI, MLX, Parler, ChatTTS and MMS arguments, which it
      receives and never reads. In `"local"` mode it calls
      `LocalAudioStreamer(recv_q, send_q)`, two arguments for a constructor that
      needs `stop_event`, `queue_in` and `queue_out`: a `TypeError`. */
  function BuildPipeline(moduleArgs: ModuleArguments, recvArgs: SocketReceiverArguments, sendArgs: SocketSenderArguments,
                         vad: Kwargs, whisper: Kwargs, lm: Kwargs, melo: Kwargs, unused: seq<Kwargs>,
                         eq: EventsAndQueues): (r: Result<seq<Stage>, BuildError>)
    ensures moduleArgs.mode == "local" ==> r == Err(MissingArgument("queue_out"))
    ensures moduleArgs.mode != "local" ==> (r.Ok? <==> MeloTts.MeloSetupAccepts(melo))
    ensures r.Ok? ==> |r.value| == 6 && forall i :: 0 <= i < |r.value| ==> r.value[i].stopEvent == eq.stopEvent
  {
    if moduleArgs.mode == "local" then Err(MissingArgument("queue_out"))
    else Handlers(SocketComms(recvArgs, sendArgs, eq), vad, whisper, lm, melo, eq)
  }

  /** `build_pipeline` with the loopback constructed as
      `LocalAudioStreamer(stop_event, recv_q, send_q)`. */
  function BuildPipelineIntended(moduleArgs: ModuleArguments, recvArgs: SocketReceiverArguments, sendArgs: SocketSenderArguments,
                                 vad: Kwargs, whisper: Kwargs, lm: Kwargs, melo: Kwargs, unused: seq<Kwargs>,
                                 eq: EventsAndQueues): (r: Result<seq<Stage>, BuildError>)
    ensures r.Ok? <==> MeloTts.MeloSetupAccepts(melo)
    ensures r.Ok? ==> forall i :: 0 <= i < |r.value| ==> r.value[i].stopEvent == eq.stopEvent
  {
    if moduleArgs.mode == "local" then
      Handlers([Stage(Loopback, eq.stopEvent, Some(eq.recvQ), Some(eq.sendQ))], vad, whisper, lm, melo, eq)
    else Handlers(SocketComms(recvArgs, sendArgs, eq), vad, whisper, lm, melo, eq)
  }

  /** The indices of the stages that put to `q`. */
  function Producers(stages: seq<Stage>, q: Queue): set<nat>
  {
    set i: nat | i < |stages| && stages[i].queueOut == Some(q)
  }

  /** The indices of the stages that take from `q`. */
  function Consumers(stages: seq<Stage>, q: Queue): set<nat>
  {
    set i: nat | i < |stages| && stages[i].queueIn == Some(q)
  }

  /** Outside local mode the stages are the receiver, the sender, VAD, STT, LM
      and TTS, chained `recv_q` → VAD → `spoken_q` → STT → `text_q` → LM →
      `lm_q` → TTS → `send_q`, with the receiver feeding `recv_q` and the
      sender draining `send_q`; every stage shares the one stop event, and the
      unused argument groups make no difference. */
  lemma PipelineWiring(moduleArgs: ModuleArguments, recvArgs: SocketReceiverArguments, sendArgs: SocketSenderArguments,
                       vad: Kwargs, whisper: Kwargs, lm: Kwargs, melo: Kwargs, unused: seq<Kwargs>, unused': seq<Kwargs>,
                       eq: EventsAndQueues)
    requires moduleArgs.mode != "local" && MeloTts.MeloSetupAccepts(melo)
    ensures BuildPipeline(moduleArgs, recvArgs, sendArgs, vad, whisper, lm, melo, unused, eq)
         == BuildPipeline(moduleArgs, recvArgs, sendArgs, vad, whisper, lm, melo, unused', eq)
    ensures var s := BuildPipeline(moduleArgs, recvArgs, sendArgs, vad, whisper, lm, melo, unused, eq).value;
      && s[0].role == SocketReceiver(recvArgs.recvHost, recvArgs.recvPort, recvArgs.chunkSize)
      && s[1].role == SocketSender(sendArgs.sendHost, sendArgs.sendPort)
      && s[2].role == Vad(vad) && s[3].role == Stt(whisper) && s[4].role == LanguageModel(lm) && s[5].role == Tts(melo)
      && s[0].queueIn == None && s[0].queueOut == s[2].queueIn == Some(eq.recvQ)
      && s[2].queueOut == s[3].queueIn == Some(eq.spokenQ)
      && s[3].queueOut == s[4].queueIn == Some(eq.textQ)
      && s[4].queueOut == s[5].queueIn == Some(eq.lmQ)
      && s[5].queueOut == s[1].queueIn == Some(eq.sendQ) && s[1].queueOut == None
  {
  }

  /** With five distinct queues, outside local mode every queue has exactly one
      stage putting to it and exactly one taking from it. */
  lemma OneProducerOneConsumer(moduleArgs: ModuleArguments, recvArgs: SocketReceiverArguments, sendArgs: SocketSenderArguments,
                               vad: Kwargs, whisper: Kwargs, lm: Kwargs, melo: Kwargs, unused: seq<Kwargs>,
                               eq: EventsAndQueues)
    requires moduleArgs.mode != "local" && MeloTts.MeloSetupAccepts(melo) && DistinctQueues(eq)
    ensures var s := BuildPipeline(moduleArgs, recvArgs, sendArgs, vad, whisper, lm, melo, unused, eq).value;
      && Producers(s, eq.recvQ) == {0} && Consumers(s, eq.recvQ) == {2}
      && Producers(s, eq.spokenQ) == {2} && Consumers(s, eq.spokenQ) == {3}
      && Producers(s, eq.textQ) == {3} && Consumers(s, eq.textQ) == {4}
      && Producers(s, eq.lmQ) == {4} && Consumers(s, eq.lmQ) == {5}
      && Producers(s, eq.sendQ) == {5} && Consumers(s, eq.sendQ) == {1}
  {
    var s := BuildPipeline(moduleArgs, recvArgs, sendArgs, vad, whisper, lm, melo, unused, eq).value;
    assert |s| == 6;
  }

  /** The loopback as intended takes from `recv_q` and puts to `send_q` under the
      shared stop event; its `setup` receives no keyword arguments, so it
      builds whenever the TTS stage does. */
  lemma IntendedLocalModeBuilds(moduleArgs: ModuleArguments, recvArgs: SocketReceiverArguments, sendArgs: SocketSenderArguments,
                                vad: Kwargs, whisper: Kwargs, lm: Kwargs, melo: Kwargs, unused: seq<Kwargs>,
                                eq: EventsAndQueues)
    requires moduleArgs.mode == "local" && MeloTts.MeloSetupAccepts(melo)
    ensures BuildPipeline(moduleArgs, recvArgs, sendArgs, vad, whisper, lm, melo, unused, eq).Err?
    ensures var r := BuildPipelineIntended(moduleArgs, recvArgs, sendArgs, vad, whisper, lm, melo, unused, eq);
      && r.Ok? && |r.value| == 5
      && r.value[0] == Stage(Loopback, eq.stopEvent, Some(eq.recvQ), Some(eq.sendQ))
      && r.value[1].queueIn == Some(eq.recvQ) && r.value[4].queueOut == Some(eq.sendQ)
    ensures forall m: ModuleArguments :: m.mode != "local" ==>
      BuildPipelineIntended(m, recvArgs, sendArgs, vad, whisper, lm, melo, unused, eq)
        == BuildPipeline(m, recvArgs, sendArgs, vad, whisper, lm, melo, unused, eq)
  {
  }
}
