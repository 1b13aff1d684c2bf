/** Streaming NVFP4 conversion of a sharded checkpoint, with gate/up pairs that may live in different files. */
module Nvfp4 {
  import opened Strings
  import opened Wrappers

  // ---- tensors as terms over the quantisers ----

  datatype Role = Gate | Up
  datatype Part = QWeight | BlockScale | GlobalScale

  /** Quantiser outputs are kept symbolic: two outputs are equal here only if they come from the same call on the
      same source tensors, so the results below hold for every quantiser. */
  datatype Tensor =
    | Source(key: string)
    | Single(of: Tensor, part: Part)
    | Joint(gate: Tensor, up: Tensor, role: Role, part: Part)
    | OnesLike(of: Tensor)

  type Entries = map<string, Tensor>

  // ---- names ----

  const WEIGHT := ".weight"

  function GatedSuffixes(): seq<(string, Role)> {
    [(".gate_proj.weight", Gate), (".up_proj.weight", Up), (".w1.weight", Gate), (".w3.weight", Up)]
  }

  function SplitBy(name: string, suffixes: seq<(string, Role)>): (r: Option<(string, Role)>) {
    if suffixes == [] then None
    else if EndsWith(name, suffixes[0].0) then Some((name[..|name| - |suffixes[0].0|], suffixes[0].1))
    else SplitBy(name, suffixes[1..])
  }

  /** Base name and role of a gate or up weight. */
  function SplitGatedPairName(name: string): Option<(string, Role)> {
    SplitBy(name, GatedSuffixes())
  }

  /** A gate weight ends in `.gate_proj.weight` or `.w1.weight`, an up weight in `.up_proj.weight` or `.w3.weight`. */
  lemma SplitGatedPairNameIff(name: string, base: string, role: Role)
    ensures SplitGatedPairName(name) == Some((base, role)) <==>
              match role
              case Gate => name == base + ".gate_proj.weight" || name == base + ".w1.weight"
              case Up => name == base + ".up_proj.weight" || name == base + ".w3.weight"
  {
    SplitByStep(name, GatedSuffixes(), base, role);
    SplitByStep(name, GatedSuffixes()[1..], base, role);
    SplitByStep(name, GatedSuffixes()[1..][1..], base, role);
    SplitByStep(name, GatedSuffixes()[1..][1..][1..], base, role);
    OneGatedSuffix(name);
    WithSuffix(name, base, ".gate_proj.weight");
    WithSuffix(name, base, ".up_proj.weight");
    WithSuffix(name, base, ".w1.weight");
    WithSuffix(name, base, ".w3.weight");
    hide EndsWith;
  }

  lemma WithSuffix(name: string, base: string, suffix: string)
    ensures name == base + suffix ==> EndsWith(name, suffix)
  {}

  lemma OneGatedSuffix(name: string)
    ensures !(EndsWith(name, ".gate_proj.weight") && EndsWith(name, ".up_proj.weight"))
    ensures !(EndsWith(name, ".w1.weight") && EndsWith(name, ".w3.weight"))
    ensures EndsWith(name, ".gate_proj.weight") || EndsWith(name, ".up_proj.weight") ==>
              !EndsWith(name, ".w1.weight") && !EndsWith(name, ".w3.weight")
  {
    assert EndsWith(name, ".gate_proj.weight") ==> name[|name| - 8] == 'j' && name[|name| - 13] == 'e';
    assert EndsWith(name, ".up_proj.weight") ==> name[|name| - 8] == 'j' && name[|name| - 13] == 'p';
    assert EndsWith(name, ".w1.weight") ==> name[|name| - 8] == '1';
    assert EndsWith(name, ".w3.weight") ==> name[|name| - 8] == '3';
  }

  lemma SplitByStep(name: string, suffixes: seq<(string, Role)>, base: string, role: Role)
    requires suffixes != []
    ensures SplitBy(name, suffixes) == Some((base, role)) <==>
              if EndsWith(name, suffixes[0].0) then name == base + suffixes[0].0 && role == suffixes[0].1
              else SplitBy(name, suffixes[1..]) == Some((base, role))
    ensures EndsWith(base + suffixes[0].0, suffixes[0].0)
  {
    if EndsWith(name, suffixes[0].0) {
      assert name == name[..|name| - |suffixes[0].0|] + suffixes[0].0;
    }
  }

  function QuantizedEntries(key: string, q: Tensor, blockScale: Tensor, globalScale: Tensor): Entries {
    map[key := q]
      [ReplaceAll(key, WEIGHT, ".weight_scale") := blockScale]
      [ReplaceAll(key, WEIGHT, ".weight_scale_2") := globalScale]
      [ReplaceAll(key, WEIGHT, ".input_scale") := OnesLike(globalScale)]
  }

  function Stem(key: string): string
    requires EndsWith(key, WEIGHT)
  {
    key[..|key| - |WEIGHT|]
  }

  /** The name ends in ".weight" and contains it nowhere else. */
  ghost predicate PlainWeightName(key: string) {
    EndsWith(key, WEIGHT) && FirstAt(Stem(key), WEIGHT, [])
  }

  lemma EntryNames(key: string, q: Tensor, b: Tensor, g: Tensor)
    requires PlainWeightName(key)
    ensures QuantizedEntries(key, q, b, g) ==
              map[key := q, Stem(key) + ".weight_scale" := b, Stem(key) + ".weight_scale_2" := g,
                  Stem(key) + ".input_scale" := OnesLike(g)]
  {
    assert key == Stem(key) + WEIGHT;
    ReplaceSuffix(Stem(key), WEIGHT, ".weight_scale");
    ReplaceSuffix(Stem(key), WEIGHT, ".weight_scale_2");
    ReplaceSuffix(Stem(key), WEIGHT, ".input_scale");
  }

  predicate IsSuffix(s: string) {
    s in {".weight", ".weight_scale", ".weight_scale_2", ".input_scale"}
  }

  lemma SuffixesDecideStem(a: string, s: string, b: string, t: string)
    requires IsSuffix(s) && IsSuffix(t) && a + s == b + t
    ensures a == b && s == t
  {
    var n := a + s;
    assert n[|n| - 1] == s[|s| - 1] == t[|t| - 1];
    assert n[|n| - 2] == s[|s| - 2] == t[|t| - 2];
    assert n[|n| - 7] == s[|s| - 7] == t[|t| - 7];
    assert |s| >= 8 && |t| >= 8 ==> n[|n| - 8] == s[|s| - 8] == t[|t| - 8];
    assert n[..|a|] == a && n[..|b|] == b;
  }

  ghost predicate IsEntryName(key: string, n: string)
    requires EndsWith(key, WEIGHT)
  {
    exists s :: IsSuffix(s) && n == Stem(key) + s
  }

  lemma EntryDomain(key: string, q: Tensor, b: Tensor, g: Tensor, n: string)
    requires PlainWeightName(key)
    ensures n in QuantizedEntries(key, q, b, g) <==> IsEntryName(key, n)
  {
    EntryNames(key, q, b, g);
    assert key == Stem(key) + WEIGHT && IsSuffix(WEIGHT);
    assert IsSuffix(".weight_scale") && IsSuffix(".weight_scale_2") && IsSuffix(".input_scale");
  }

  lemma WeightStem(k: string)
    requires EndsWith(k, WEIGHT)
    ensures k == Stem(k) + WEIGHT
  {}

  /** Different weights never write to a common name. */
  lemma EntriesDisjoint(k: string, k': string, n: string)
    requires EndsWith(k, WEIGHT) && EndsWith(k', WEIGHT)
    requires IsEntryName(k, n) && IsEntryName(k', n)
    ensures k == k'
  {
    hide IsSuffix, EndsWith;
    var s :| IsSuffix(s) && n == Stem(k) + s;
    var t :| IsSuffix(t) && n == Stem(k') + t;
    WeightStem(k);
    WeightStem(k');
    hide *;
    SuffixesDecideStem(Stem(k), s, Stem(k'), t);
  }

  // ---- the checkpoint ----

  /** Files in listing order, the keys of each file in its own order, and the verdict of `should_quantize`:
      `rejected` keys are those whose shape makes it raise. */
  datatype Checkpoint = Checkpoint(files: seq<string>, keysOf: map<string, seq<string>>,
                                   quantizable: set<string>, rejected: set<string>)
  {
    ghost predicate At(f: string, k: string) {
      f in files && f in keysOf && k in keysOf[f]
    }

    ghost predicate Has(k: string) {
      exists f :: At(f, k)
    }

    /** Globally unique keys, each listed once. */
    ghost predicate Valid() {
      && (forall i, j :: 0 <= i < j < |files| ==> files[i] != files[j])
      && (forall f :: f in files ==> f in keysOf && EndsWith(f, ".safetensors"))
      && (forall f, i, j :: f in files && 0 <= i < j < |keysOf[f]| ==> keysOf[f][i] != keysOf[f][j])
      && (forall f, g, k :: At(f, k) && At(g, k) ==> f == g)
      && (forall k :: k in quantizable ==> PlainWeightName(k))
      && quantizable !! rejected
    }

    ghost predicate HasRole(k: string, b: string, r: Role) {
      k in quantizable && SplitGatedPairName(k) == Some((b, r))
    }
  }

  datatype Pair = Pair(gateFile: string, gateKey: string, upFile: string, upKey: string) {
    function File(r: Role): string { if r.Gate? then gateFile else upFile }
    function Key(r: Role): string { if r.Gate? then gateKey else upKey }
  }

  function Other(r: Role): Role { if r.Gate? then Up else Gate }

  type Locations = map<string, Pair>

  /** The complete pairs of the checkpoint: exactly the bases with both roles, located correctly, each role held by a
      single key. */
  ghost predicate ValidLocations(cp: Checkpoint, loc: Locations) {
    && (forall b, r :: b in loc ==> cp.At(loc[b].File(r), loc[b].Key(r)) && cp.HasRole(loc[b].Key(r), b, r))
    && (forall b, r, k :: b in loc && cp.Has(k) && cp.HasRole(k, b, r) ==> k == loc[b].Key(r))
    && (forall b, g, u :: cp.Has(g) && cp.Has(u) && cp.HasRole(g, b, Gate) && cp.HasRole(u, b, Up) ==> b in loc)
  }

  // ---- the order-free meaning ----

  predicate Paired(loc: Locations, k: string) {
    var s := SplitGatedPairName(k);
    s.Some? && s.value.0 in loc
  }

  function BaseOf(loc: Locations, k: string): string
    requires Paired(loc, k)
  {
    SplitGatedPairName(k).value.0
  }

  function RoleOf(loc: Locations, k: string): Role
    requires Paired(loc, k)
  {
    SplitGatedPairName(k).value.1
  }

  /** The member of the pair that holds the other role. */
  function Partner(loc: Locations, k: string): string
    requires Paired(loc, k)
  {
    loc[BaseOf(loc, k)].Key(Other(RoleOf(loc, k)))
  }

  function PartnerFile(loc: Locations, k: string): string
    requires Paired(loc, k)
  {
    loc[BaseOf(loc, k)].File(Other(RoleOf(loc, k)))
  }

  function JointEntries(pair: Pair, r: Role): Entries {
    var g, u := Source(pair.gateKey), Source(pair.upKey);
    QuantizedEntries(pair.Key(r), Joint(g, u, r, QWeight), Joint(g, u, r, BlockScale), Joint(g, u, r, GlobalScale))
  }

  /** What a quantised key stands for: one joint call for the members of a complete pair, a call of its own otherwise. */
  function EntriesOf(loc: Locations, k: string): Entries {
    if Paired(loc, k) then JointEntries(loc[BaseOf(loc, k)], RoleOf(loc, k))
    else QuantizedEntries(k, Single(Source(k), QWeight), Single(Source(k), BlockScale), Single(Source(k), GlobalScale))
  }

  ghost predicate Quantised(cp: Checkpoint, f: string, k: string) {
    cp.At(f, k) && k in cp.quantizable
  }

  /** The content of one converted file, said without any order: every quantised key of the file contributes its
      entries, every other key of the file is copied unless an entry takes its name, and there is nothing else. */
  ghost predicate FileMeaning(cp: Checkpoint, loc: Locations, f: string, m: Entries) {
    && (forall k, n :: Quantised(cp, f, k) && n in EntriesOf(loc, k) ==> n in m && m[n] == EntriesOf(loc, k)[n])
    && (forall k :: cp.At(f, k) && k !in cp.quantizable && !Shadowed(cp, loc, f, k) ==> k in m && m[k] == Source(k))
    && (forall n :: n in m ==> (cp.At(f, n) && n !in cp.quantizable) || Shadowed(cp, loc, f, n))
  }

  ghost predicate Shadowed(cp: Checkpoint, loc: Locations, f: string, n: string) {
    exists k :: Quantised(cp, f, k) && n in EntriesOf(loc, k)
  }

  /** The meaning leaves no freedom. */
  lemma FileMeaningIsUnique(cp: Checkpoint, loc: Locations, f: string, m: Entries, m': Entries)
    requires FileMeaning(cp, loc, f, m) && FileMeaning(cp, loc, f, m')
    ensures m == m'
  {
    hide EntriesOf, Checkpoint.At;
    forall n | n in m ensures n in m' && m'[n] == m[n] {
      if Shadowed(cp, loc, f, n) {
        var k :| Quantised(cp, f, k) && n in EntriesOf(loc, k);
      }
    }
    forall n | n in m' ensures n in m {
      if Shadowed(cp, loc, f, n) {
        var k :| Quantised(cp, f, k) && n in EntriesOf(loc, k);
      }
    }
  }

  lemma EntriesOfDomain(cp: Checkpoint, loc: Locations, f: string, k: string, n: string)
    requires cp.Valid() && ValidLocations(cp, loc) && Quantised(cp, f, k)
    ensures Paired(loc, k) ==> loc[BaseOf(loc, k)].Key(RoleOf(loc, k)) == k && loc[BaseOf(loc, k)].File(RoleOf(loc, k)) == f
    ensures n in EntriesOf(loc, k) <==> IsEntryName(k, n)
    ensures k in EntriesOf(loc, k)
  {
    assert cp.Has(k);
    if Paired(loc, k) {
      var b, r := BaseOf(loc, k), RoleOf(loc, k);
      assert cp.HasRole(k, b, r);
      var g, u := Source(loc[b].gateKey), Source(loc[b].upKey);
      EntryDomain(k, Joint(g, u, r, QWeight), Joint(g, u, r, BlockScale), Joint(g, u, r, GlobalScale), n);
      EntryNames(k, Joint(g, u, r, QWeight), Joint(g, u, r, BlockScale), Joint(g, u, r, GlobalScale));
    } else {
      EntryDomain(k, Single(Source(k), QWeight), Single(Source(k), BlockScale), Single(Source(k), GlobalScale), n);
      EntryNames(k, Single(Source(k), QWeight), Single(Source(k), BlockScale), Single(Source(k), GlobalScale));
    }
  }

  lemma EntriesOfDisjoint(cp: Checkpoint, loc: Locations, f: string, k: string, k': string, n: string)
    requires cp.Valid() && ValidLocations(cp, loc) && Quantised(cp, f, k) && Quantised(cp, f, k')
    requires n in EntriesOf(loc, k) && n in EntriesOf(loc, k')
    ensures k == k'
  {
    EntriesOfDomain(cp, loc, f, k, n);
    EntriesOfDomain(cp, loc, f, k', n);
    EntriesDisjoint(k, k', n);
  }

  /** A quantised key is not a name that another key's entries use. */
  lemma KeyIsOwnEntry(cp: Checkpoint, loc: Locations, f: string, k: string, k': string)
    requires cp.Valid() && ValidLocations(cp, loc) && Quantised(cp, f, k) && Quantised(cp, f, k')
    requires k in EntriesOf(loc, k')
    ensures k == k'
  {
    EntriesOfDomain(cp, loc, f, k, k);
    EntriesOfDisjoint(cp, loc, f, k, k', k);
  }

  // ---- what holds between two keys of the stream ----

  /** Key k of file f has its entries in the file's output: it was visited, or its partner was and they share f. */
  ghost predicate Done(cp: Checkpoint, loc: Locations, f: string, visited: set<string>, k: string) {
    && Quantised(cp, f, k)
    && (k in visited || (Paired(loc, k) && Partner(loc, k) in visited && PartnerFile(loc, k) == f))
  }

  ghost function DoneKeys(cp: Checkpoint, loc: Locations, f: string, visited: set<string>): set<string> {
    set k | k in cp.quantizable && Done(cp, loc, f, visited, k)
  }

  /** Visited keys of f that are copied. */
  ghost function CopiedKeys(cp: Checkpoint, f: string, visited: set<string>): set<string> {
    set k | k in visited && cp.At(f, k) && k !in cp.quantizable
  }

  ghost predicate Written(loc: Locations, done: set<string>, n: string) {
    exists k :: k in done && n in EntriesOf(loc, k)
  }

  /** `q` holds the entries of the `done` keys, the `copied` keys those entries do not shadow, and nothing else. */
  ghost predicate Holds(loc: Locations, done: set<string>, copied: set<string>, q: Entries) {
    && (forall k, n :: k in done && n in EntriesOf(loc, k) ==> n in q && q[n] == EntriesOf(loc, k)[n])
    && (forall k :: k in copied && !Written(loc, done, k) ==> k in q && q[k] == Source(k))
    && (forall n :: n in q ==> n in copied || Written(loc, done, n))
  }

  ghost predicate Disjoint(loc: Locations, done: set<string>) {
    forall k, k', n :: k in done && k' in done && n in EntriesOf(loc, k) && n in EntriesOf(loc, k') ==> k == k'
  }

  lemma WrittenMonotone(loc: Locations, done: set<string>, all: set<string>, n: string)
    requires done <= all
    ensures Written(loc, done, n) ==> Written(loc, all, n)
  {}

  lemma HoldsUnion(loc: Locations, done: set<string>, copied: set<string>, q: Entries, more: set<string>, added: Entries)
    requires Disjoint(loc, done + more) && Holds(loc, done, copied, q) && Holds(loc, more, {}, added)
    ensures Holds(loc, done + more, copied, q + added)
  {
    hide EntriesOf;
    var all, out := done + more, q + added;
    forall k, n | k in all && n in EntriesOf(loc, k) ensures n in out && out[n] == EntriesOf(loc, k)[n] {
      if n in added {
        var k' :| k' in more && n in EntriesOf(loc, k');
        assert k == k';
      }
    }
    forall n | n in out ensures n in copied || Written(loc, all, n) {
      WrittenMonotone(loc, done, all, n);
      WrittenMonotone(loc, more, all, n);
    }
    forall k | k in copied && !Written(loc, all, k) ensures k in out && out[k] == Source(k) {
      WrittenMonotone(loc, done, all, k);
      WrittenMonotone(loc, more, all, k);
    }
  }

  /** A copied key is added unless an entry already has its name. */
  lemma HoldsCopy(loc: Locations, done: set<string>, copied: set<string>, q: Entries, k: string)
    requires Holds(loc, done, copied, q) && k !in copied
    ensures Holds(loc, done, copied + {k}, if k in q then q else q[k := Source(k)])
  {
    hide EntriesOf;
    forall d, n | d in done && n in EntriesOf(loc, d) ensures n in q && Written(loc, done, n) {
    }
  }

  lemma HoldsOne(loc: Locations, k: string)
    ensures Holds(loc, {k}, {}, EntriesOf(loc, k))
  {
    hide EntriesOf;
    forall n | n in EntriesOf(loc, k) ensures Written(loc, {k}, n) {
      assert k in {k};
    }
  }

  /** Key k of file g is owed its entries: its partner, in another file, was visited first. */
  ghost predicate Pending(cp: Checkpoint, loc: Locations, visited: set<string>, g: string, k: string) {
    && Quantised(cp, g, k) && k !in visited
    && Paired(loc, k) && Partner(loc, k) in visited && PartnerFile(loc, k) != g
  }

  type Deferred = map<string, map<string, Entries>>

  predicate Deferring(deferred: Deferred, g: string, k: string) {
    g in deferred && k in deferred[g]
  }

  ghost predicate DeferredExactly(cp: Checkpoint, loc: Locations, visited: set<string>, deferred: Deferred) {
    forall g, k :: (Deferring(deferred, g, k) <==> Pending(cp, loc, visited, g, k))
                   && (Deferring(deferred, g, k) ==> deferred[g][k] == EntriesOf(loc, k))
  }

  ghost predicate ProcessedExactly(loc: Locations, visited: set<string>, processed: set<string>) {
    forall b :: b in processed <==> b in loc && (loc[b].gateKey in visited || loc[b].upKey in visited)
  }

  /** Partners point at each other. */
  lemma PartnerIsMutual(cp: Checkpoint, loc: Locations, f: string, k: string)
    requires cp.Valid() && ValidLocations(cp, loc) && Quantised(cp, f, k) && Paired(loc, k)
    ensures var p, g := Partner(loc, k), PartnerFile(loc, k);
            && Quantised(cp, g, p) && Paired(loc, p) && BaseOf(loc, p) == BaseOf(loc, k)
            && Partner(loc, p) == k && PartnerFile(loc, p) == f && p != k
  {
    assert cp.Has(k);
    var b, r := BaseOf(loc, k), RoleOf(loc, k);
    assert cp.HasRole(k, b, r);
    assert cp.HasRole(loc[b].Key(Other(r)), b, Other(r));
  }

  /** A base is processed exactly when one of its two keys was visited. */
  lemma ProcessedMeansVisited(cp: Checkpoint, loc: Locations, f: string, k: string, visited: set<string>, processed: set<string>)
    requires cp.Valid() && ValidLocations(cp, loc) && Quantised(cp, f, k) && Paired(loc, k)
    requires ProcessedExactly(loc, visited, processed)
    ensures BaseOf(loc, k) in processed <==> k in visited || Partner(loc, k) in visited
  {
    EntriesOfDomain(cp, loc, f, k, k);
  }

  lemma FileEntriesDisjoint(cp: Checkpoint, loc: Locations, f: string, keys: set<string>)
    requires cp.Valid() && ValidLocations(cp, loc)
    requires forall k :: k in keys ==> Quantised(cp, f, k)
    ensures Disjoint(loc, keys)
  {
    hide EntriesOf;
    forall k, k', n | k in keys && k' in keys && n in EntriesOf(loc, k) && n in EntriesOf(loc, k') ensures k == k' {
      EntriesOfDisjoint(cp, loc, f, k, k', n);
    }
  }

  /** When every key of the file was visited, what it holds is its meaning. */
  lemma WholeFile(cp: Checkpoint, loc: Locations, f: string, visited: set<string>, q: Entries)
    requires cp.Valid() && ValidLocations(cp, loc) && f in cp.files
    requires forall k :: cp.At(f, k) ==> k in visited
    requires Holds(loc, DoneKeys(cp, loc, f, visited), CopiedKeys(cp, f, visited), q)
    ensures FileMeaning(cp, loc, f, q)
  {
    hide EntriesOf;
    var done := DoneKeys(cp, loc, f, visited);
    forall k ensures k in done <==> Quantised(cp, f, k) {
    }
    forall n ensures Written(loc, done, n) <==> Shadowed(cp, loc, f, n) {
      if Written(loc, done, n) {
        var k :| k in done && n in EntriesOf(loc, k);
        assert Quantised(cp, f, k);
      }
      if Shadowed(cp, loc, f, n) {
        var k :| Quantised(cp, f, k) && n in EntriesOf(loc, k);
        assert k in done;
      }
    }
  }

  // ---- how a visit changes the picture ----

  /** Visiting a copied key completes nothing and settles nothing. */
  lemma VisitCopied(cp: Checkpoint, loc: Locations, f: string, visited: set<string>, k: string)
    requires cp.Valid() && ValidLocations(cp, loc) && cp.At(f, k) && k !in visited && k !in cp.quantizable
    ensures DoneKeys(cp, loc, f, visited + {k}) == DoneKeys(cp, loc, f, visited)
    ensures CopiedKeys(cp, f, visited + {k}) == CopiedKeys(cp, f, visited) + {k}
    ensures forall g, d :: Pending(cp, loc, visited + {k}, g, d) <==> Pending(cp, loc, visited, g, d)
    ensures forall p :: ProcessedExactly(loc, visited, p) ==> ProcessedExactly(loc, visited + {k}, p)
  {
    hide EntriesOf;
    forall g, d | Quantised(cp, g, d) && Paired(loc, d) ensures Partner(loc, d) != k && d != k {
      PartnerIsMutual(cp, loc, g, d);
    }
    forall b | b in loc ensures loc[b].gateKey != k && loc[b].upKey != k {
      assert cp.HasRole(loc[b].Key(Gate), b, Gate) && cp.HasRole(loc[b].Key(Up), b, Up);
    }
  }

  /** Visiting a quantised key that has no complete pair completes that key alone. */
  lemma VisitSingle(cp: Checkpoint, loc: Locations, f: string, visited: set<string>, k: string)
    requires cp.Valid() && ValidLocations(cp, loc) && Quantised(cp, f, k) && k !in visited && !Paired(loc, k)
    ensures DoneKeys(cp, loc, f, visited + {k}) == DoneKeys(cp, loc, f, visited) + {k}
    ensures CopiedKeys(cp, f, visited + {k}) == CopiedKeys(cp, f, visited)
    ensures forall g, d :: Pending(cp, loc, visited + {k}, g, d) <==> Pending(cp, loc, visited, g, d)
    ensures forall p :: ProcessedExactly(loc, visited, p) ==> ProcessedExactly(loc, visited + {k}, p)
  {
    hide EntriesOf;
    forall g, d | Quantised(cp, g, d) && Paired(loc, d) ensures Partner(loc, d) != k && d != k {
      PartnerIsMutual(cp, loc, g, d);
    }
    forall b | b in loc ensures loc[b].gateKey != k && loc[b].upKey != k {
      assert cp.HasRole(loc[b].Key(Gate), b, Gate) && cp.HasRole(loc[b].Key(Up), b, Up);
    }
  }

  /** Visiting a paired key: it is complete in its own file, and its partner is complete if it shares the file,
      owed if it does not, unless it was visited already. */
  lemma VisitPaired(cp: Checkpoint, loc: Locations, f: string, visited: set<string>, k: string)
    requires cp.Valid() && ValidLocations(cp, loc) && Quantised(cp, f, k) && k !in visited && Paired(loc, k)
    ensures CopiedKeys(cp, f, visited + {k}) == CopiedKeys(cp, f, visited)
    ensures DoneKeys(cp, loc, f, visited + {k})
            == DoneKeys(cp, loc, f, visited) + {k} + if PartnerFile(loc, k) == f then {Partner(loc, k)} else {}
    ensures forall g, d :: Pending(cp, loc, visited + {k}, g, d) <==>
              (Pending(cp, loc, visited, g, d) && d != k)
              || (d == Partner(loc, k) && g == PartnerFile(loc, k) && g != f && d !in visited)
    ensures forall p :: ProcessedExactly(loc, visited, p) ==> ProcessedExactly(loc, visited + {k}, p + {BaseOf(loc, k)})
  {
    hide EntriesOf;
    PartnerIsMutual(cp, loc, f, k);
    EntriesOfDomain(cp, loc, f, k, k);
    forall g, d | Quantised(cp, g, d) && Paired(loc, d)
      ensures Partner(loc, d) == k ==> d == Partner(loc, k) && PartnerFile(loc, d) == f && g == PartnerFile(loc, k)
    {
      PartnerIsMutual(cp, loc, g, d);
    }
    forall b | b in loc && (loc[b].gateKey == k || loc[b].upKey == k) ensures b == BaseOf(loc, k) {
      assert cp.HasRole(loc[b].Key(Gate), b, Gate) && cp.HasRole(loc[b].Key(Up), b, Up);
    }
  }

  // ---- collecting the pairs ----

  type RoleTable = map<string, map<Role, (string, string)>>

  /** The roles seen so far are exactly those of the visited keys, one key each. */
  ghost predicate RolesSoFar(cp: Checkpoint, visited: set<string>, table: RoleTable) {
    && (forall b, r, k :: k in visited && cp.HasRole(k, b, r) ==> b in table && r in table[b] && table[b][r].1 == k)
    && (forall b, r :: b in table && r in table[b] ==>
          table[b][r].1 in visited && cp.At(table[b][r].0, table[b][r].1) && cp.HasRole(table[b][r].1, b, r))
    && (forall k :: k in visited ==> k !in cp.rejected)
  }

  /** Two keys of the checkpoint compete for one role. */
  ghost predicate DuplicateRole(cp: Checkpoint) {
    exists b, r, k, k' :: k != k' && cp.Has(k) && cp.Has(k') && cp.HasRole(k, b, r) && cp.HasRole(k', b, r)
  }

  ghost predicate Rejecting(cp: Checkpoint) {
    exists k :: cp.Has(k) && k in cp.rejected
  }

  function CompletePairs(table: RoleTable): Locations {
    map b | b in table && Gate in table[b] && Up in table[b] ::
      Pair(table[b][Gate].0, table[b][Gate].1, table[b][Up].0, table[b][Up].1)
  }

  method NoteRole(cp: Checkpoint, f: string, k: string, table: RoleTable, ghost visited: set<string>)
      returns (r: Result<RoleTable>)
    requires cp.Valid() && cp.At(f, k) && k !in visited && RolesSoFar(cp, visited, table)
    requires forall v :: v in visited ==> cp.Has(v)
    ensures r.Success? ==> RolesSoFar(cp, visited + {k}, r.value)
    ensures r.Failure? ==> Rejecting(cp) || DuplicateRole(cp)
  {
    assert cp.Has(k);
    if k in cp.rejected {
      return Failure("last dimension is not divisible by the group size");
    }
    var split := SplitGatedPairName(k);
    if k !in cp.quantizable || split.None? {
      return Success(table);
    }
    var (base, role) := split.value;
    var roles := if base in table then table[base] else map[];
    assert cp.HasRole(k, base, role);
    if role in roles {
      assert roles[role].1 != k && cp.HasRole(roles[role].1, base, role);
      return Failure("duplicate tensor for a role");
    }
    r := Success(table[base := roles[role := (f, k)]]);
  }

  /** The first pass over the files: it fails exactly when a key is rejected or a role is held twice. */
  method CollectGatedPairLocations(cp: Checkpoint) returns (r: Result<Locations>)
    requires cp.Valid()
    ensures r.Success? <==> !Rejecting(cp) && !DuplicateRole(cp)
    ensures r.Success? ==> ValidLocations(cp, r.value)
  {
    var table: RoleTable := map[];
    ghost var visited: set<string> := {};
    for i := 0 to |cp.files|
      invariant RolesSoFar(cp, visited, table)
      invariant forall k :: k in visited <==> exists a :: 0 <= a < i && k in cp.keysOf[cp.files[a]]
    {
      var f := cp.files[i];
      var keys := cp.keysOf[f];
      ghost var before := visited;
      for j := 0 to |keys|
        invariant RolesSoFar(cp, visited, table)
        invariant forall k :: k in visited <==> k in before || k in keys[..j]
      {
        assert cp.At(f, keys[j]);
        assert keys[j] !in before by {
          if keys[j] in before {
            var a :| 0 <= a < i && keys[j] in cp.keysOf[cp.files[a]];
            assert cp.At(cp.files[a], keys[j]);
          }
        }
        forall v | v in visited ensures cp.Has(v) {
          if v in before {
            var a :| 0 <= a < i && v in cp.keysOf[cp.files[a]];
            assert cp.At(cp.files[a], v);
          } else {
            assert cp.At(f, v);
          }
        }
        var t := NoteRole(cp, f, keys[j], table, visited);
        if t.Failure? {
          return Failure(t.message);
        }
        table := t.value;
        visited := visited + {keys[j]};
        assert keys[..j + 1] == keys[..j] + [keys[j]];
      }
      assert keys[..|keys|] == keys;
    }
    assert forall k :: k in visited <==> cp.Has(k) by { VisitedIsAll(cp, visited); }
    r := Success(CompletePairs(table));
    CompletePairsAreValid(cp, visited, table);
  }

  lemma VisitedIsAll(cp: Checkpoint, visited: set<string>)
    requires cp.Valid()
    requires forall k :: k in visited <==> exists a :: 0 <= a < |cp.files| && k in cp.keysOf[cp.files[a]]
    ensures forall k :: k in visited <==> cp.Has(k)
  {
    forall k ensures k in visited <==> cp.Has(k) {
      if k in visited {
        var a :| 0 <= a < |cp.files| && k in cp.keysOf[cp.files[a]];
        assert cp.At(cp.files[a], k);
      }
      if cp.Has(k) {
        var f :| cp.At(f, k);
        var a :| 0 <= a < |cp.files| && cp.files[a] == f;
      }
    }
  }

  lemma CompletePairsAreValid(cp: Checkpoint, visited: set<string>, table: RoleTable)
    requires cp.Valid() && RolesSoFar(cp, visited, table)
    requires forall k :: k in visited <==> cp.Has(k)
    ensures ValidLocations(cp, CompletePairs(table))
    ensures !Rejecting(cp) && !DuplicateRole(cp)
  {
    hide Checkpoint.Has, Checkpoint.At, Checkpoint.HasRole, Checkpoint.Valid;
    var loc := CompletePairs(table);
    forall b, r | b in loc ensures cp.At(loc[b].File(r), loc[b].Key(r)) && cp.HasRole(loc[b].Key(r), b, r) {
      assert Gate in table[b] && Up in table[b];
      assert r == Gate || r == Up;
    }
    forall b, r, k | b in loc && cp.Has(k) && cp.HasRole(k, b, r) ensures k == loc[b].Key(r) {
      assert r in table[b] && table[b][r].1 == k;
    }
    forall b, g, u | cp.Has(g) && cp.Has(u) && cp.HasRole(g, b, Gate) && cp.HasRole(u, b, Up) ensures b in loc {
      assert Gate in table[b] && Up in table[b];
    }
  }

  // ---- one turn of the loop, branch by branch ----

  function PutDeferred(deferred: Deferred, g: string, k: string, e: Entries): (d: Deferred)
    ensures forall g', k' :: Deferring(d, g', k') <==> Deferring(deferred, g', k') || (g' == g && k' == k)
    ensures Deferring(d, g, k) && d[g][k] == e
    ensures forall g', k' :: Deferring(deferred, g', k') && !(g' == g && k' == k) ==>
              Deferring(d, g', k') && d[g'][k'] == deferred[g'][k']
  {
    deferred[g := (if g in deferred then deferred[g] else map[])[k := e]]
  }

  function PopDeferred(deferred: Deferred, g: string, k: string): (d: Deferred)
    requires Deferring(deferred, g, k)
    ensures forall g', k' :: Deferring(d, g', k') <==> Deferring(deferred, g', k') && !(g' == g && k' == k)
    ensures forall g', k' :: Deferring(d, g', k') ==> Deferring(deferred, g', k') && d[g'][k'] == deferred[g'][k']
  {
    deferred[g := deferred[g] - {k}]
  }

  /** The invariant of the stream between two keys of file f. */
  ghost predicate Streaming(cp: Checkpoint, loc: Locations, f: string, visited: set<string>, q: Entries,
                            deferred: Deferred, processed: set<string>) {
    && cp.Valid() && ValidLocations(cp, loc)
    && Holds(loc, DoneKeys(cp, loc, f, visited), CopiedKeys(cp, f, visited), q)
    && DeferredExactly(cp, loc, visited, deferred)
    && ProcessedExactly(loc, visited, processed)
  }

  lemma AlreadyWritten(cp: Checkpoint, loc: Locations, f: string, visited: set<string>, q: Entries, k: string,
                       deferred: Deferred, processed: set<string>)
    requires Streaming(cp, loc, f, visited, q, deferred, processed)
    requires Quantised(cp, f, k) && k !in visited && k in q
    ensures Paired(loc, k) && Partner(loc, k) in visited && PartnerFile(loc, k) == f
  {
    hide EntriesOf;
    var done := DoneKeys(cp, loc, f, visited);
    assert Written(loc, done, k);
    var d :| d in done && k in EntriesOf(loc, d);
    KeyIsOwnEntry(cp, loc, f, k, d);
  }

  /** `if key in q_weights: continue`. */
  lemma SkipTurn(cp: Checkpoint, loc: Locations, f: string, visited: set<string>, q: Entries, k: string,
                 deferred: Deferred, processed: set<string>)
    requires Streaming(cp, loc, f, visited, q, deferred, processed) && cp.At(f, k) && k !in visited && k in q
    ensures Streaming(cp, loc, f, visited + {k}, q, deferred, processed)
  {
    hide EntriesOf;
    if k in cp.quantizable {
      AlreadyWritten(cp, loc, f, visited, q, k, deferred, processed);
      VisitPaired(cp, loc, f, visited, k);
      PartnerIsMutual(cp, loc, f, k);
      ProcessedMeansVisited(cp, loc, f, k, visited, processed);
      assert processed + {BaseOf(loc, k)} == processed;
      var done := DoneKeys(cp, loc, f, visited);
      assert done + {k} + {Partner(loc, k)} == done;
    } else {
      VisitCopied(cp, loc, f, visited, k);
      HoldsCopy(loc, DoneKeys(cp, loc, f, visited), CopiedKeys(cp, f, visited), q, k);
    }
  }

  /** Taking an owed entry settles exactly that debt. */
  lemma PopState(cp: Checkpoint, loc: Locations, f: string, visited: set<string>, k: string,
                 deferred: Deferred, processed: set<string>)
    requires cp.Valid() && ValidLocations(cp, loc)
    requires DeferredExactly(cp, loc, visited, deferred) && ProcessedExactly(loc, visited, processed)
    requires Deferring(deferred, f, k)
    ensures Pending(cp, loc, visited, f, k) && deferred[f][k] == EntriesOf(loc, k)
    ensures DeferredExactly(cp, loc, visited + {k}, PopDeferred(deferred, f, k))
    ensures ProcessedExactly(loc, visited + {k}, processed)
  {
    hide EntriesOf, PopDeferred;
    assert Pending(cp, loc, visited, f, k);
    VisitPaired(cp, loc, f, visited, k);
    PartnerIsMutual(cp, loc, f, k);
    ProcessedMeansVisited(cp, loc, f, k, visited, processed);
    assert processed + {BaseOf(loc, k)} == processed;
    var d := PopDeferred(deferred, f, k);
    forall g, k' ensures Deferring(d, g, k') <==> Pending(cp, loc, visited + {k}, g, k')
                 ensures Deferring(d, g, k') ==> d[g][k'] == EntriesOf(loc, k') {
      if k' == k && Pending(cp, loc, visited, g, k') {
        assert g == f;
      }
    }
  }

  /** The entries left behind by the partner are there, and go to this file. */
  lemma PopTurn(cp: Checkpoint, loc: Locations, f: string, visited: set<string>, q: Entries, k: string,
                deferred: Deferred, processed: set<string>)
    requires Streaming(cp, loc, f, visited, q, deferred, processed) && Deferring(deferred, f, k)
    ensures Streaming(cp, loc, f, visited + {k}, q + deferred[f][k], PopDeferred(deferred, f, k), processed)
  {
    hide EntriesOf, PopDeferred, DeferredExactly, ProcessedExactly, Holds;
    PopState(cp, loc, f, visited, k, deferred, processed);
    VisitPaired(cp, loc, f, visited, k);
    var done := DoneKeys(cp, loc, f, visited);
    HoldsOne(loc, k);
    FileEntriesDisjoint(cp, loc, f, done + {k});
    HoldsUnion(loc, done, CopiedKeys(cp, f, visited), q, {k}, EntriesOf(loc, k));
    assert done + {k} + {} == done + {k};
  }

  lemma CopyTurn(cp: Checkpoint, loc: Locations, f: string, visited: set<string>, q: Entries, k: string,
                 deferred: Deferred, processed: set<string>)
    requires Streaming(cp, loc, f, visited, q, deferred, processed)
    requires cp.At(f, k) && k !in visited && k !in cp.quantizable && k !in q
    ensures Streaming(cp, loc, f, visited + {k}, q[k := Source(k)], deferred, processed)
  {
    VisitCopied(cp, loc, f, visited, k);
    HoldsCopy(loc, DoneKeys(cp, loc, f, visited), CopiedKeys(cp, f, visited), q, k);
  }

  lemma SingleTurn(cp: Checkpoint, loc: Locations, f: string, visited: set<string>, q: Entries, k: string,
                   deferred: Deferred, processed: set<string>)
    requires Streaming(cp, loc, f, visited, q, deferred, processed)
    requires Quantised(cp, f, k) && k !in visited && !Paired(loc, k)
    ensures Streaming(cp, loc, f, visited + {k}, q + EntriesOf(loc, k), deferred, processed)
  {
    hide EntriesOf;
    VisitSingle(cp, loc, f, visited, k);
    var done := DoneKeys(cp, loc, f, visited);
    HoldsOne(loc, k);
    FileEntriesDisjoint(cp, loc, f, done + {k});
    HoldsUnion(loc, done, CopiedKeys(cp, f, visited), q, {k}, EntriesOf(loc, k));
  }

  /** A paired key that is neither written nor owed is the first of its pair: the error branch is dead. */
  lemma FirstOfPair(cp: Checkpoint, loc: Locations, f: string, visited: set<string>, q: Entries, k: string,
                    deferred: Deferred, processed: set<string>)
    requires Streaming(cp, loc, f, visited, q, deferred, processed)
    requires Quantised(cp, f, k) && k !in visited && Paired(loc, k) && k !in q && !Deferring(deferred, f, k)
    ensures BaseOf(loc, k) !in processed && Partner(loc, k) !in visited
  {
    hide EntriesOf;
    ProcessedMeansVisited(cp, loc, f, k, visited, processed);
    PartnerIsMutual(cp, loc, f, k);
    EntriesOfDomain(cp, loc, f, k, k);
  }

  /** The joint call: both halves to this file, or the partner's half left for the partner's file. */
  lemma JointTurn(cp: Checkpoint, loc: Locations, f: string, visited: set<string>, q: Entries, k: string,
                  deferred: Deferred, processed: set<string>)
    requires Streaming(cp, loc, f, visited, q, deferred, processed)
    requires Quantised(cp, f, k) && k !in visited && Paired(loc, k) && Partner(loc, k) !in visited
    ensures var p, g := Partner(loc, k), PartnerFile(loc, k);
            && (g == f ==> Streaming(cp, loc, f, visited + {k}, q + EntriesOf(loc, k) + EntriesOf(loc, p), deferred,
                                     processed + {BaseOf(loc, k)})
                           && Streaming(cp, loc, f, visited + {k}, q + EntriesOf(loc, p) + EntriesOf(loc, k), deferred,
                                        processed + {BaseOf(loc, k)}))
            && (g != f ==> Streaming(cp, loc, f, visited + {k}, q + EntriesOf(loc, k),
                                     PutDeferred(deferred, g, p, EntriesOf(loc, p)), processed + {BaseOf(loc, k)}))
  {
    if PartnerFile(loc, k) == f {
      JointHere(cp, loc, f, visited, q, k, deferred, processed);
    } else {
      JointElsewhere(cp, loc, f, visited, q, k, deferred, processed);
    }
  }

  lemma JointHere(cp: Checkpoint, loc: Locations, f: string, visited: set<string>, q: Entries, k: string,
                  deferred: Deferred, processed: set<string>)
    requires Streaming(cp, loc, f, visited, q, deferred, processed)
    requires Quantised(cp, f, k) && k !in visited && Paired(loc, k) && Partner(loc, k) !in visited && PartnerFile(loc, k) == f
    ensures var p := Partner(loc, k);
            && Streaming(cp, loc, f, visited + {k}, q + EntriesOf(loc, k) + EntriesOf(loc, p), deferred, processed + {BaseOf(loc, k)})
            && Streaming(cp, loc, f, visited + {k}, q + EntriesOf(loc, p) + EntriesOf(loc, k), deferred, processed + {BaseOf(loc, k)})
  {
    var p := Partner(loc, k);
    var done, copied := DoneKeys(cp, loc, f, visited), CopiedKeys(cp, f, visited);
    NothingNewPending(cp, loc, f, visited, k, deferred);
    VisitPaired(cp, loc, f, visited, k);
    PartnerIsMutual(cp, loc, f, k);
    FileEntriesDisjoint(cp, loc, f, done + {k} + {p});
    assert ProcessedExactly(loc, visited + {k}, processed + {BaseOf(loc, k)});
    hide *;
    HoldsOne(loc, k);
    HoldsOne(loc, p);
    HoldsBoth(loc, done, copied, q, k, p);
    StreamingFrom(cp, loc, f, visited + {k}, q + EntriesOf(loc, k) + EntriesOf(loc, p), deferred, processed + {BaseOf(loc, k)},
                  done + {k} + {p}, copied);
    StreamingFrom(cp, loc, f, visited + {k}, q + EntriesOf(loc, p) + EntriesOf(loc, k), deferred, processed + {BaseOf(loc, k)},
                  done + {k} + {p}, copied);
  }

  lemma StreamingFrom(cp: Checkpoint, loc: Locations, f: string, visited: set<string>, q: Entries, deferred: Deferred,
                      processed: set<string>, done: set<string>, copied: set<string>)
    requires cp.Valid() && ValidLocations(cp, loc) && done == DoneKeys(cp, loc, f, visited) && copied == CopiedKeys(cp, f, visited)
    requires Holds(loc, done, copied, q) && DeferredExactly(cp, loc, visited, deferred) && ProcessedExactly(loc, visited, processed)
    ensures Streaming(cp, loc, f, visited, q, deferred, processed)
  {}

  /** A pair that is written here at once leaves nothing for another file. */
  lemma NothingNewPending(cp: Checkpoint, loc: Locations, f: string, visited: set<string>, k: string, deferred: Deferred)
    requires cp.Valid() && ValidLocations(cp, loc) && Quantised(cp, f, k) && k !in visited && Paired(loc, k)
    requires Partner(loc, k) !in visited && PartnerFile(loc, k) == f && DeferredExactly(cp, loc, visited, deferred)
    ensures DeferredExactly(cp, loc, visited + {k}, deferred)
  {
    VisitPaired(cp, loc, f, visited, k);
    assert forall g :: !Pending(cp, loc, visited, g, k);
    hide Pending, Deferring, EntriesOf, ValidLocations, Checkpoint.Valid, Partner, PartnerFile, Paired, Quantised, DoneKeys, CopiedKeys, ProcessedExactly, BaseOf;
    assert forall g, d :: Pending(cp, loc, visited + {k}, g, d) <==> Pending(cp, loc, visited, g, d);
  }

  /** Two more keys, in either order. */
  lemma HoldsBoth(loc: Locations, done: set<string>, copied: set<string>, q: Entries, k: string, p: string)
    requires Disjoint(loc, done + {k} + {p}) && Holds(loc, done, copied, q)
    requires Holds(loc, {k}, {}, EntriesOf(loc, k)) && Holds(loc, {p}, {}, EntriesOf(loc, p))
    ensures Holds(loc, done + {k} + {p}, copied, q + EntriesOf(loc, k) + EntriesOf(loc, p))
    ensures Holds(loc, done + {k} + {p}, copied, q + EntriesOf(loc, p) + EntriesOf(loc, k))
  {
    assert done + {p} + {k} == done + {k} + {p};
    assert Disjoint(loc, done + {k}) && Disjoint(loc, done + {p});
    hide *;
    HoldsUnion(loc, done, copied, q, {k}, EntriesOf(loc, k));
    HoldsUnion(loc, done + {k}, copied, q + EntriesOf(loc, k), {p}, EntriesOf(loc, p));
    HoldsUnion(loc, done, copied, q, {p}, EntriesOf(loc, p));
    HoldsUnion(loc, done + {p}, copied, q + EntriesOf(loc, p), {k}, EntriesOf(loc, k));
  }

  lemma JointElsewhere(cp: Checkpoint, loc: Locations, f: string, visited: set<string>, q: Entries, k: string,
                       deferred: Deferred, processed: set<string>)
    requires Streaming(cp, loc, f, visited, q, deferred, processed)
    requires Quantised(cp, f, k) && k !in visited && Paired(loc, k) && Partner(loc, k) !in visited && PartnerFile(loc, k) != f
    ensures Streaming(cp, loc, f, visited + {k}, q + EntriesOf(loc, k),
                      PutDeferred(deferred, PartnerFile(loc, k), Partner(loc, k), EntriesOf(loc, Partner(loc, k))),
                      processed + {BaseOf(loc, k)})
  {
    hide EntriesOf;
    var p := Partner(loc, k);
    VisitPaired(cp, loc, f, visited, k);
    PartnerIsMutual(cp, loc, f, k);
    var done, copied := DoneKeys(cp, loc, f, visited), CopiedKeys(cp, f, visited);
    HoldsOne(loc, k);
    HoldsOne(loc, p);
    FileEntriesDisjoint(cp, loc, f, done + {k});
    HoldsUnion(loc, done, copied, q, {k}, EntriesOf(loc, k));
    assert done + {k} + {} == done + {k};
  }

  // ---- the converter ----

  class Converter {
    const cp: Checkpoint
    const loc: Locations
    var processed: set<string>
    var deferred: Deferred
    var output: map<string, Entries>
    var weightMap: map<string, string>
    ghost var jointCalls: multiset<string>   // bases handed to the joint quantiser, with multiplicity

    constructor (cp: Checkpoint, loc: Locations)
      ensures this.cp == cp && this.loc == loc
      ensures processed == {} && deferred == map[] && output == map[] && weightMap == map[] && jointCalls == multiset{}
    {
      this.cp, this.loc := cp, loc;
      processed, deferred, output, weightMap := {}, map[], map[], map[];
      jointCalls := multiset{};
    }

    /** Every processed base went through the joint quantiser once, and no other base did. */
    ghost predicate JointOnce()
      reads this`processed, this`jointCalls
    {
      forall b :: jointCalls[b] == if b in processed then 1 else 0
    }

    /** One half of a joint result: to this file's output, or left for its own file. */
    method PutHalf(f: string, pair: Pair, role: Role, q: Entries) returns (out: Entries)
      modifies this`deferred
      ensures pair.File(role) == f ==> out == q + JointEntries(pair, role) && deferred == old(deferred)
      ensures pair.File(role) != f ==>
                out == q
                && deferred == PutDeferred(old(deferred), pair.File(role), pair.Key(role), JointEntries(pair, role))
    {
      var entries := JointEntries(pair, role);
      out := q;
      if pair.File(role) == f {
        out := out + entries;
      } else {
        deferred := PutDeferred(deferred, pair.File(role), pair.Key(role), entries);
      }
    }

    /** One joint call; each half goes to its own file. */
    method QuantizePair(f: string, base: string, q: Entries) returns (out: Entries)
      requires base in loc
      modifies this`processed, this`deferred, this`jointCalls
      ensures processed == old(processed) + {base} && jointCalls == old(jointCalls) + multiset{base}
      ensures var p := loc[base];
              && (p.gateFile == f && p.upFile == f ==>
                    out == q + JointEntries(p, Gate) + JointEntries(p, Up) && deferred == old(deferred))
              && (p.gateFile == f && p.upFile != f ==>
                    out == q + JointEntries(p, Gate)
                    && deferred == PutDeferred(old(deferred), p.upFile, p.upKey, JointEntries(p, Up)))
              && (p.gateFile != f && p.upFile == f ==>
                    out == q + JointEntries(p, Up)
                    && deferred == PutDeferred(old(deferred), p.gateFile, p.gateKey, JointEntries(p, Gate)))
    {
      var pair := loc[base];
      out := PutHalf(f, pair, Gate, q);
      out := PutHalf(f, pair, Up, out);
      processed := processed + {base};
      jointCalls := jointCalls + multiset{base};
    }

    /** One turn of the loop over the keys of a file. It never meets a processed pair whose output is missing. */
    method VisitKey(f: string, k: string, q: Entries, ghost visited: set<string>) returns (r: Result<Entries>)
      requires Streaming(cp, loc, f, visited, q, deferred, processed) && JointOnce()
      requires cp.At(f, k) && k !in visited
      modifies this`processed, this`deferred, this`jointCalls
      ensures r.Success? && Streaming(cp, loc, f, visited + {k}, r.value, deferred, processed) && JointOnce()
    {
      if k in q {
        SkipTurn(cp, loc, f, visited, q, k, deferred, processed);
        return Success(q);
      }
      if Deferring(deferred, f, k) {
        PopTurn(cp, loc, f, visited, q, k, deferred, processed);
        var entries := deferred[f][k];
        deferred := PopDeferred(deferred, f, k);
        return Success(q + entries);
      }
      if k in cp.quantizable {
        if Paired(loc, k) {
          var base := BaseOf(loc, k);
          FirstOfPair(cp, loc, f, visited, q, k, deferred, processed);
          if base in processed {
            return Failure("Missing deferred NVFP4 output for already processed gated pair");
          }
          JointTurn(cp, loc, f, visited, q, k, deferred, processed);
          PairEntries(cp, loc, f, k);
          var out := QuantizePair(f, base, q);
          return Success(out);
        }
        SingleTurn(cp, loc, f, visited, q, k, deferred, processed);
        return Success(q + EntriesOf(loc, k));
      }
      CopyTurn(cp, loc, f, visited, q, k, deferred, processed);
      r := Success(q[k := Source(k)]);
    }

    /** The loop over the keys of one file. */
    method ConvertKeys(f: string, ghost visited: set<string>) returns (r: Result<Entries>)
      requires f in cp.files && Streaming(cp, loc, f, visited, map[], deferred, processed) && JointOnce()
      requires forall k :: cp.At(f, k) ==> k !in visited
      modifies this`processed, this`deferred, this`jointCalls
      ensures r.Success? && JointOnce()
      ensures Streaming(cp, loc, f, visited + KeysOf(cp, f), r.value, deferred, processed)
    {
      hide Streaming, ValidLocations;
      assert cp.Valid() by { StreamingIsValid(cp, loc, f, visited, map[], deferred, processed); }
      var keys := cp.keysOf[f];
      var q: Entries := map[];
      ghost var v := visited;
      assert v == visited + set k | k in keys[..0];
      for j := 0 to |keys|
        invariant Streaming(cp, loc, f, v, q, deferred, processed) && JointOnce()
        invariant v == visited + set k | k in keys[..j]
      {
        assert cp.At(f, keys[j]);
        var step := VisitKey(f, keys[j], q, v);
        if step.Failure? {
          return Failure("already processed");
        }
        q := step.value;
        v := v + {keys[j]};
        assert keys[..j + 1] == keys[..j] + [keys[j]];
      }
      assert keys[..|keys|] == keys;
      r := Success(q);
    }

    /** One file: its output is its meaning, whatever the order of its keys and of the files before it. */
    method ProcessFile(f: string, ghost visited: set<string>) returns (r: Result<()>)
      requires cp.Valid() && ValidLocations(cp, loc) && f in cp.files
      requires DeferredExactly(cp, loc, visited, deferred) && ProcessedExactly(loc, visited, processed) && JointOnce()
      requires forall k :: cp.At(f, k) ==> k !in visited
      modifies this
      ensures r.Success?
      ensures var v := visited + KeysOf(cp, f);
              DeferredExactly(cp, loc, v, deferred) && ProcessedExactly(loc, v, processed) && JointOnce()
      ensures exists q :: FileMeaning(cp, loc, f, q) && output == old(output)[f := q]
                          && weightMap == old(weightMap) + NamesTo(q, f)
    {
      hide FileMeaning, Holds, DoneKeys, CopiedKeys, ValidLocations;
      FreshFile(cp, loc, f, visited);
      var converted := ConvertKeys(f, visited);
      if converted.Failure? {
        return Failure("already processed");
      }
      var q := converted.value;
      WholeFile(cp, loc, f, visited + KeysOf(cp, f), q);
      output := output[f := q];
      weightMap := weightMap + NamesTo(q, f);
      r := Success(());
    }
  }

  function NamesTo(q: Entries, f: string): map<string, string> {
    map n | n in q :: f
  }

  ghost function KeysOf(cp: Checkpoint, f: string): set<string>
    requires f in cp.keysOf
  {
    set k | k in cp.keysOf[f]
  }

  lemma StreamingIsValid(cp: Checkpoint, loc: Locations, f: string, visited: set<string>, q: Entries,
                         deferred: Deferred, processed: set<string>)
    requires Streaming(cp, loc, f, visited, q, deferred, processed)
    ensures cp.Valid()
  {}

  lemma PairEntries(cp: Checkpoint, loc: Locations, f: string, k: string)
    requires cp.Valid() && ValidLocations(cp, loc) && Quantised(cp, f, k) && Paired(loc, k)
    ensures var b, r := BaseOf(loc, k), RoleOf(loc, k);
            && EntriesOf(loc, k) == JointEntries(loc[b], r)
            && EntriesOf(loc, Partner(loc, k)) == JointEntries(loc[b], Other(r))
            && loc[b].File(r) == f && loc[b].File(Other(r)) == PartnerFile(loc, k)
            && loc[b].Key(Other(r)) == Partner(loc, k)
  {
    hide QuantizedEntries;
    PartnerIsMutual(cp, loc, f, k);
    EntriesOfDomain(cp, loc, f, k, k);
    assert cp.HasRole(loc[BaseOf(loc, k)].Key(Other(RoleOf(loc, k))), BaseOf(loc, k), Other(RoleOf(loc, k)));
  }

  /** Before its first key is visited, a file holds nothing: no partner elsewhere writes into it directly. */
  lemma FreshFile(cp: Checkpoint, loc: Locations, f: string, visited: set<string>)
    requires cp.Valid() && ValidLocations(cp, loc)
    requires forall k :: cp.At(f, k) ==> k !in visited
    ensures DoneKeys(cp, loc, f, visited) == {} && CopiedKeys(cp, f, visited) == {}
    ensures Holds(loc, {}, {}, map[])
  {
    hide EntriesOf;
    forall k | Quantised(cp, f, k) && Paired(loc, k) && PartnerFile(loc, k) == f ensures Partner(loc, k) !in visited {
      PartnerIsMutual(cp, loc, f, k);
    }
  }

  /** When all keys were visited nothing is owed. */
  lemma NothingOwed(cp: Checkpoint, loc: Locations, visited: set<string>, deferred: Deferred)
    requires DeferredExactly(cp, loc, visited, deferred)
    requires forall f, k :: cp.At(f, k) ==> k in visited
    ensures forall g :: g in deferred ==> deferred[g] == map[]
  {
    hide EntriesOf;
    forall g | g in deferred ensures deferred[g] == map[] {
      forall k ensures k !in deferred[g] {
        assert Deferring(deferred, g, k) <==> k in deferred[g];
      }
    }
  }

  predicate LeftOver(deferred: Deferred) {
    exists g :: g in deferred && deferred[g] != map[]
  }

  /** The files converted so far: each output is the file's meaning, and the index covers exactly their names. */
  ghost predicate Converted(cp: Checkpoint, loc: Locations, files: seq<string>, output: map<string, Entries>,
                            weightMap: map<string, string>) {
    && (forall f :: f in output <==> f in files)
    && (forall f :: f in files ==> f in output && FileMeaning(cp, loc, f, output[f]))
    && (forall f, n :: f in files && n in output[f] ==> n in weightMap)
    && (forall n :: n in weightMap ==> weightMap[n] in files && n in output[weightMap[n]])
  }

  lemma ConvertedStep(cp: Checkpoint, loc: Locations, files: seq<string>, output: map<string, Entries>,
                      weightMap: map<string, string>, f: string, q: Entries)
    requires Converted(cp, loc, files, output, weightMap) && f !in files && FileMeaning(cp, loc, f, q)
    ensures Converted(cp, loc, files + [f], output[f := q], weightMap + NamesTo(q, f))
  {
    hide FileMeaning;
  }

  /** The conversion. It fails exactly when the first pass does; otherwise every file's output is its order-free
      meaning, every complete pair was quantised jointly once, and the index sends each name to a file that has it. */
  method ConvertNvfp4(cp: Checkpoint) returns (r: Result<Converter>)
    requires cp.Valid()
    ensures r.Success? <==> !Rejecting(cp) && !DuplicateRole(cp)
    ensures r.Success? ==>
              && r.value.cp == cp && ValidLocations(cp, r.value.loc)
              && Converted(cp, r.value.loc, cp.files, r.value.output, r.value.weightMap)
              && (forall b :: r.value.jointCalls[b] == if b in r.value.loc then 1 else 0)
  {
    hide FileMeaning, Converted, Rejecting, DuplicateRole;
    var located := CollectGatedPairLocations(cp);
    if located.Failure? {
      return Failure(located.message);
    }
    var c := new Converter(cp, located.value);
    ghost var visited: set<string> := {};
    NothingConverted(cp, c.loc);
    for i := 0 to |cp.files|
      invariant c.cp == cp && c.loc == located.value && c.JointOnce()
      invariant DeferredExactly(cp, c.loc, visited, c.deferred) && ProcessedExactly(c.loc, visited, c.processed)
      invariant VisitedUpTo(cp, i, visited)
      invariant Converted(cp, c.loc, cp.files[..i], c.output, c.weightMap)
    {
      var f := cp.files[i];
      NextFileIsFresh(cp, i, visited);
      ghost var before, names := c.output, c.weightMap;
      var step := c.ProcessFile(f, visited);
      if step.Failure? {
        return Failure("already processed");
      }
      ghost var q :| FileMeaning(cp, c.loc, f, q) && c.output == before[f := q] && c.weightMap == names + NamesTo(q, f);
      ConvertedStep(cp, c.loc, cp.files[..i], before, names, f, q);
      assert cp.files[..i + 1] == cp.files[..i] + [f];
      visited := visited + KeysOf(cp, f);
    }
    assert cp.files[..|cp.files|] == cp.files;
    VisitedIsAll(cp, visited);
    forall f, k | cp.At(f, k) ensures k in visited {
      assert cp.Has(k);
    }
    NothingOwed(cp, c.loc, visited, c.deferred);
    if LeftOver(c.deferred) {
      return Failure("Unwritten deferred NVFP4 gated-pair entries");
    }
    forall b | b in c.loc ensures b in c.processed {
      assert cp.At(c.loc[b].File(Gate), c.loc[b].Key(Gate));
    }
    r := Success(c);
  }

  ghost predicate VisitedUpTo(cp: Checkpoint, i: nat, visited: set<string>)
    requires i <= |cp.files| && cp.Valid()
  {
    forall k :: k in visited <==> exists a :: 0 <= a < i && k in cp.keysOf[cp.files[a]]
  }

  lemma NextFileIsFresh(cp: Checkpoint, i: nat, visited: set<string>)
    requires i < |cp.files| && cp.Valid() && VisitedUpTo(cp, i, visited)
    ensures cp.files[i] !in cp.files[..i]
    ensures forall k :: cp.At(cp.files[i], k) ==> k !in visited
    ensures VisitedUpTo(cp, i + 1, visited + KeysOf(cp, cp.files[i]))
  {
    forall k | cp.At(cp.files[i], k) ensures k !in visited {
      if k in visited {
        var a :| 0 <= a < i && k in cp.keysOf[cp.files[a]];
        assert cp.At(cp.files[a], k);
      }
    }
    var v := visited + KeysOf(cp, cp.files[i]);
    forall k ensures k in v <==> exists a :: 0 <= a < i + 1 && k in cp.keysOf[cp.files[a]] {
      if k in KeysOf(cp, cp.files[i]) {
        assert k in cp.keysOf[cp.files[i]];
      }
    }
  }

  lemma NothingConverted(cp: Checkpoint, loc: Locations)
    ensures Converted(cp, loc, [], map[], map[])
    ensures cp.files[..0] == []
  {}

  // ---------------------------------------------------------------- what is written, entry by entry

  ghost predicate GateOf(name: string, base: string) {
    name == base + ".gate_proj.weight" || name == base + ".w1.weight"
  }

  ghost predicate UpOf(name: string, base: string) {
    name == base + ".up_proj.weight" || name == base + ".w3.weight"
  }

  /** The two weights are the gate and the up of one base, both of the checkpoint and both quantised. */
  ghost predicate GateAndUp(cp: Checkpoint, g: string, u: string) {
    cp.Has(g) && cp.Has(u) && g in cp.quantizable && u in cp.quantizable && exists base :: GateOf(g, base) && UpOf(u, base)
  }

  /** The four entries of a key: the quantised weight, its two scales, and ones of the shape of the second. */
  ghost predicate Writes(m: Entries, stem: string, weight: Tensor, blockScale: Tensor, globalScale: Tensor) {
    && stem + ".weight" in m && m[stem + ".weight"] == weight
    && stem + ".weight_scale" in m && m[stem + ".weight_scale"] == blockScale
    && stem + ".weight_scale_2" in m && m[stem + ".weight_scale_2"] == globalScale
    && stem + ".input_scale" in m && m[stem + ".input_scale"] == OnesLike(globalScale)
  }

  lemma EntriesAreWritten(m: Entries, stem: string, q: Tensor, b: Tensor, g: Tensor)
    requires PlainWeightName(stem + WEIGHT)
    requires forall n :: n in QuantizedEntries(stem + WEIGHT, q, b, g) ==> n in m && m[n] == QuantizedEntries(stem + WEIGHT, q, b, g)[n]
    ensures Writes(m, stem, q, b, g)
  {
    EntryNames(stem + WEIGHT, q, b, g);
    assert Stem(stem + WEIGHT) == stem;
    var entries := map[stem + WEIGHT := q, stem + ".weight_scale" := b, stem + ".weight_scale_2" := g,
                       stem + ".input_scale" := OnesLike(g)];
    SuffixesDiffer(stem);
    hide QuantizedEntries, PlainWeightName, Stem;
    assert forall n :: n in entries ==> n in m && m[n] == entries[n];
  }

  lemma SuffixesDiffer(stem: string)
    ensures stem + ".weight" != stem + ".weight_scale" && stem + ".weight" != stem + ".weight_scale_2"
    ensures stem + ".weight" != stem + ".input_scale" && stem + ".weight_scale" != stem + ".weight_scale_2"
    ensures stem + ".weight_scale" != stem + ".input_scale" && stem + ".weight_scale_2" != stem + ".input_scale"
  {
    assert (stem + ".weight_scale")[|stem| + 1] == 'w' && (stem + ".input_scale")[|stem| + 1] == 'i';
    assert (stem + ".weight_scale_2")[|stem| + 1] == 'w' && (stem + ".weight")[|stem| + 1] == 'w';
  }

  lemma RolesOf(name: string, base: string)
    ensures GateOf(name, base) <==> SplitGatedPairName(name) == Some((base, Gate))
    ensures UpOf(name, base) <==> SplitGatedPairName(name) == Some((base, Up))
  {
    SplitGatedPairNameIff(name, base, Gate);
    SplitGatedPairNameIff(name, base, Up);
  }

  /** A quantised key is in a located pair exactly if the weight of the other role is there, and the pair names both. */
  lemma PairedIff(cp: Checkpoint, loc: Locations, k: string)
    requires cp.Valid() && ValidLocations(cp, loc) && cp.Has(k) && k in cp.quantizable
    ensures forall u :: GateAndUp(cp, k, u) ==>
              Paired(loc, k) && RoleOf(loc, k) == Gate && loc[BaseOf(loc, k)].gateKey == k && loc[BaseOf(loc, k)].upKey == u
    ensures forall g :: GateAndUp(cp, g, k) ==>
              Paired(loc, k) && RoleOf(loc, k) == Up && loc[BaseOf(loc, k)].gateKey == g && loc[BaseOf(loc, k)].upKey == k
    ensures Paired(loc, k) ==> exists other :: GateAndUp(cp, k, other) || GateAndUp(cp, other, k)
  {
    forall u | GateAndUp(cp, k, u)
      ensures Paired(loc, k) && RoleOf(loc, k) == Gate && loc[BaseOf(loc, k)].gateKey == k && loc[BaseOf(loc, k)].upKey == u
    {
      var base :| GateOf(k, base) && UpOf(u, base);
      PairLocated(cp, loc, k, u, base);
    }
    forall g | GateAndUp(cp, g, k)
      ensures Paired(loc, k) && RoleOf(loc, k) == Up && loc[BaseOf(loc, k)].gateKey == g && loc[BaseOf(loc, k)].upKey == k
    {
      var base :| GateOf(g, base) && UpOf(k, base);
      PairLocated(cp, loc, g, k, base);
    }
    if Paired(loc, k) {
      LocatedPair(cp, loc, k);
    }
  }

  lemma PairLocated(cp: Checkpoint, loc: Locations, g: string, u: string, base: string)
    requires ValidLocations(cp, loc) && cp.Has(g) && cp.Has(u) && g in cp.quantizable && u in cp.quantizable
    requires GateOf(g, base) && UpOf(u, base)
    ensures base in loc && loc[base].gateKey == g && loc[base].upKey == u
    ensures SplitGatedPairName(g) == Some((base, Gate)) && SplitGatedPairName(u) == Some((base, Up))
  {
    RolesOf(g, base);
    RolesOf(u, base);
    hide SplitGatedPairName, GateOf, UpOf, Checkpoint.Has;
    assert cp.HasRole(g, base, Gate) && cp.HasRole(u, base, Up);
    assert loc[base].Key(Gate) == g && loc[base].Key(Up) == u;
  }

  lemma LocatedPair(cp: Checkpoint, loc: Locations, k: string)
    requires ValidLocations(cp, loc) && cp.Has(k) && k in cp.quantizable && Paired(loc, k)
    ensures exists other :: GateAndUp(cp, k, other) || GateAndUp(cp, other, k)
  {
    hide SplitGatedPairName, GateOf, UpOf;
    var base, role := BaseOf(loc, k), RoleOf(loc, k);
    var other := loc[base].Key(Other(role));
    assert cp.At(loc[base].File(Other(role)), other) && cp.HasRole(other, base, Other(role));
    assert cp.Has(other);
    RolesOf(k, base);
    RolesOf(other, base);
    assert GateAndUp(cp, k, other) || GateAndUp(cp, other, k);
  }

  /** Every quantised weight of a converted file, entry by entry: as half of one joint call with the weight of the other role
      of its base, if the checkpoint has that, and by a call of its own otherwise. */
  lemma EveryEntry(cp: Checkpoint, loc: Locations, output: map<string, Entries>, weightMap: map<string, string>, f: string, stem: string)
    requires cp.Valid() && ValidLocations(cp, loc) && Converted(cp, loc, cp.files, output, weightMap)
    requires cp.At(f, stem + ".weight") && stem + ".weight" in cp.quantizable
    ensures f in output
    ensures forall u :: GateAndUp(cp, stem + ".weight", u) ==>
              var g := Source(stem + ".weight");
              Writes(output[f], stem, Joint(g, Source(u), Gate, QWeight), Joint(g, Source(u), Gate, BlockScale),
                     Joint(g, Source(u), Gate, GlobalScale))
    ensures forall g :: GateAndUp(cp, g, stem + ".weight") ==>
              var u := Source(stem + ".weight");
              Writes(output[f], stem, Joint(Source(g), u, Up, QWeight), Joint(Source(g), u, Up, BlockScale),
                     Joint(Source(g), u, Up, GlobalScale))
    ensures (forall other :: !GateAndUp(cp, stem + ".weight", other) && !GateAndUp(cp, other, stem + ".weight")) ==>
              var w := Source(stem + ".weight");
              Writes(output[f], stem, Single(w, QWeight), Single(w, BlockScale), Single(w, GlobalScale))
  {
    var k, m := stem + ".weight", output[f];
    assert cp.Has(k);
    PairedIff(cp, loc, k);
    KeyIsWritten(cp, loc, f, k, m);
    assert Quantised(cp, f, k) && FileMeaning(cp, loc, f, m);
    hide FileMeaning, Converted, ValidLocations, GateAndUp, Writes, QuantizedEntries, PlainWeightName, Paired, BaseOf, RoleOf;
    if Paired(loc, k) {
      var pair, role := loc[BaseOf(loc, k)], RoleOf(loc, k);
      var g, u := Source(pair.gateKey), Source(pair.upKey);
      EntriesAreWritten(m, stem, Joint(g, u, role, QWeight), Joint(g, u, role, BlockScale), Joint(g, u, role, GlobalScale));
    } else {
      EntriesAreWritten(m, stem, Single(Source(k), QWeight), Single(Source(k), BlockScale), Single(Source(k), GlobalScale));
    }
  }

  lemma KeyIsWritten(cp: Checkpoint, loc: Locations, f: string, k: string, m: Entries)
    requires cp.Valid() && ValidLocations(cp, loc) && FileMeaning(cp, loc, f, m) && Quantised(cp, f, k)
    ensures PlainWeightName(k)
    ensures Paired(loc, k) ==> loc[BaseOf(loc, k)].Key(RoleOf(loc, k)) == k
    ensures forall n :: n in EntriesOf(loc, k) ==> n in m && m[n] == EntriesOf(loc, k)[n]
  {
    QuantisedIsPlain(cp, f, k);
    hide *;
    EntriesOfDomain(cp, loc, f, k, k);
    MeaningOfKey(cp, loc, f, k, m);
  }

  lemma QuantisedIsPlain(cp: Checkpoint, f: string, k: string)
    requires cp.Valid() && Quantised(cp, f, k)
    ensures PlainWeightName(k)
  {
    hide PlainWeightName;
  }

  lemma MeaningOfKey(cp: Checkpoint, loc: Locations, f: string, k: string, m: Entries)
    requires FileMeaning(cp, loc, f, m) && Quantised(cp, f, k)
    ensures forall n :: n in EntriesOf(loc, k) ==> n in m && m[n] == EntriesOf(loc, k)[n]
  {
    hide EntriesOf, Shadowed, Quantised, Checkpoint.At;
  }
}
