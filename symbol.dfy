/**
 * The symbol polyfill of DEV_ONLY/Symbol.ts: symbols as objects carrying a
 * description and a random zero-width data string, the global registry
 * behind `Symbol.for` / `Symbol.keyFor` (ECMA-262 6th edition, sections
 * 19.4.2.1 and 19.4.2.5), and the property-name filters that hide the names
 * under which symbols are recorded.
 *
 * Randomness (`Math.random()` inside `unique`) is a parameter: `coins[i]` says
 * whether the i-th draw was below 0.5.  Object identity is a number: a symbol's
 * `id`, or the `ref` of a plain object.
 */
module SymbolRegistry {
  import opened Wrappers

  /** A polyfilled symbol; `id` stands for the identity of the `Symbol` object. */
  datatype Sym = Sym(id: nat, description: Option<string>, data: string)

  /** The JavaScript values these functions receive.  Numbers are integers here. */
  datatype JsValue =
    | Undefined
    | Null
    | Bool(b: bool)
    | Num(n: int)
    | Str(s: string)
    | SymbolObject(sym: Sym)
    | PlainObject(ref: nat)

  /** The error thrown by `_Symbol` under `new` and by `keyFor` on a non-symbol. */
  datatype TypeError = TypeError(message: string)

  const ZeroWidthNonJoiner: char := '\U{200C}'
  const ZeroWidthJoiner: char := '\U{200D}'

  /** JavaScript's `typeof`: a polyfilled symbol is an ordinary object. */
  function RawTypeOf(v: JsValue): string {
    match v
    case Undefined => "undefined"
    case Null => "object"
    case Bool(_) => "boolean"
    case Num(_) => "number"
    case Str(_) => "string"
    case SymbolObject(_) => "object"
    case PlainObject(_) => "object"
  }

  function DigitChar(d: nat): char
    requires d < 10
  {
    "0123456789"[d]
  }

  function NatToDecimal(n: nat): string
    decreases n
  {
    if n < 10 then [DigitChar(n)] else NatToDecimal(n / 10) + [DigitChar(n % 10)]
  }

  /** `String(v)`; a symbol converts through its own `toString`. */
  function JsString(v: JsValue): string {
    match v
    case Undefined => "undefined"
    case Null => "null"
    case Bool(b) => if b then "true" else "false"
    case Num(n) => if n < 0 then "-" + NatToDecimal(-n) else NatToDecimal(n)
    case Str(s) => s
    case SymbolObject(sym) => SymbolToString(sym)
    case PlainObject(_) => "[object Object]"
  }

  /** `getRegistryName(key)`: the name wrapped in double brackets. */
  function RegistryName(name: string): (r: string)
    ensures |r| == |name| + 4 && r[2..|r| - 2] == name
    ensures r[..2] == "[[" && r[|r| - 2..] == "]]"
  {
    "[[" + name + "]]"
  }

  lemma RegistryNameInjective(a: string, b: string)
    requires RegistryName(a) == RegistryName(b)
    ensures a == b
  {
    assert a == RegistryName(a)[2..|RegistryName(a)| - 2];
  }

  /**
   * `isSameValue(a, b)` for the values modelled here: different `typeof`s
   * differ, two undefineds are equal, otherwise `===`.  The number branch
   * compares integers, on which the NaN and signed-zero cases cannot arise.
   */
  function IsSameValue(a: JsValue, b: JsValue): (r: bool)
    ensures r <==> a == b
  {
    if RawTypeOf(a) != RawTypeOf(b) then false
    else if RawTypeOf(a) == "undefined" then true
    else a == b
  }

  /**
   * `unique(bits)` with `bits == |coins|`: one zero-width character per draw,
   * U+200C for a draw below 0.5 and U+200D otherwise.
   */
  function Unique(coins: seq<bool>): (r: string)
    ensures |r| == |coins|
    ensures forall i :: 0 <= i < |r| ==> r[i] in {ZeroWidthNonJoiner, ZeroWidthJoiner}
    ensures forall i :: 0 <= i < |r| ==> (r[i] == ZeroWidthNonJoiner <==> coins[i])
  {
    if coins == [] then []
    else [if coins[0] then ZeroWidthNonJoiner else ZeroWidthJoiner] + Unique(coins[1..])
  }

  /** The description the `Symbol` constructor stores: `String(description)`, none when undefined. */
  function Describe(description: JsValue): Option<string> {
    if description.Undefined? then None else Some(JsString(description))
  }

  function DescriptionText(d: Option<string>): string {
    match d
    case None => ""
    case Some(s) => s
  }

  /** `Symbol.prototype.toString`: the key under which the constructor records the symbol. */
  function SymbolToString(s: Sym): string {
    "Symbol(" + DescriptionText(s.description) + s.data + ")"
  }

  /** Two symbols with one description share their string form only if they share their data. */
  lemma SymbolToStringSeparatesData(a: Sym, b: Sym)
    requires a.description == b.description
    requires SymbolToString(a) == SymbolToString(b)
    ensures a.data == b.data
  {
    var prefix := "Symbol(" + DescriptionText(a.description);
    assert SymbolToString(a) == prefix + a.data + ")";
    assert SymbolToString(b) == prefix + b.data + ")";
    assert a.data == SymbolToString(a)[|prefix|..|SymbolToString(a)| - 1];
    assert b.data == SymbolToString(b)[|prefix|..|SymbolToString(b)| - 1];
  }

  /** The symbol `_Symbol(description)` creates when the next object identity is `id`. */
  function FreshSymbol(id: nat, description: JsValue, coins: seq<bool>): Sym {
    Sym(id, Describe(description), Unique(coins))
  }

  // ---------------------------------------------------------------------------
  // The registry
  // ---------------------------------------------------------------------------

  /** A registry entry: the key passed to `Symbol.for`, its string form, the symbol. */
  datatype Entry = Entry(key: JsValue, name: string, symbol: Sym)

  /** Each entry stores the string form of its key; names and symbols are never repeated. */
  ghost predicate RegistryWellFormed(reg: seq<Entry>) {
    (forall i :: 0 <= i < |reg| ==> reg[i].name == JsString(reg[i].key)) &&
    (forall i, j :: 0 <= i < j < |reg| ==> reg[i].name != reg[j].name) &&
    (forall i, j :: 0 <= i < j < |reg| ==> reg[i].symbol.id != reg[j].symbol.id)
  }

  /** The index of the first entry that stores `name`, as the loop in `Symbol.for` finds it. */
  function IndexOfName(reg: seq<Entry>, name: string): (r: Option<nat>)
    ensures r.Some? ==> r.value < |reg| && reg[r.value].name == name
    ensures r.Some? ==> forall j :: 0 <= j < r.value ==> reg[j].name != name
    ensures r.None? <==> forall j :: 0 <= j < |reg| ==> reg[j].name != name
    decreases |reg|
  {
    if reg == [] then None
    else if reg[0].name == name then Some(0)
    else match IndexOfName(reg[1..], name)
      case None => None
      case Some(i) => Some(i + 1)
  }

  /** The index of the first entry holding `sym`, as the loop in `Symbol.keyFor` finds it. */
  function IndexOfSymbol(reg: seq<Entry>, sym: Sym): (r: Option<nat>)
    ensures r.Some? ==> r.value < |reg| && reg[r.value].symbol == sym
    ensures r.Some? ==> forall j :: 0 <= j < r.value ==> reg[j].symbol != sym
    ensures r.None? <==> forall j :: 0 <= j < |reg| ==> reg[j].symbol != sym
    decreases |reg|
  {
    if reg == [] then None
    else if reg[0].symbol == sym then Some(0)
    else match IndexOfSymbol(reg[1..], sym)
      case None => None
      case Some(i) => Some(i + 1)
  }

  /** The symbol `Symbol.for(key)` returns; `created` is the one a miss creates. */
  function SymbolFor(reg: seq<Entry>, key: JsValue, created: Sym): Sym {
    match IndexOfName(reg, JsString(key))
    case Some(i) => reg[i].symbol
    case None => created
  }

  /** The registry after `Symbol.for(key)`; `created` is the symbol a miss creates. */
  function RegistryAfterFor(reg: seq<Entry>, key: JsValue, created: Sym): seq<Entry> {
    if IndexOfName(reg, JsString(key)).Some? then reg
    else reg + [Entry(key, JsString(key), created)]
  }

  /** What `Symbol.keyFor(sym)` returns for a symbol: the key of its entry, or undefined. */
  function KeyOf(reg: seq<Entry>, sym: Sym): Option<JsValue> {
    match IndexOfSymbol(reg, sym)
    case Some(i) => Some(reg[i].key)
    case None => None
  }

  /** `Symbol.for` appends exactly one entry on a miss and nothing on a hit. */
  lemma ForAppendsAtMostOne(reg: seq<Entry>, key: JsValue, created: Sym)
    ensures var after := RegistryAfterFor(reg, key, created);
      |after| == |reg| + (if exists j :: 0 <= j < |reg| && reg[j].name == JsString(key) then 0 else 1) &&
      after[..|reg|] == reg
    ensures (forall j :: 0 <= j < |reg| ==> reg[j].name != JsString(key)) ==>
      RegistryAfterFor(reg, key, created)[|reg|] == Entry(key, JsString(key), created)
  {
    var r := IndexOfName(reg, JsString(key));
    if r.Some? {
      assert reg[r.value].name == JsString(key);
    }
  }

  /** After a miss the new entry is the first one carrying its name. */
  lemma IndexOfNameAfterMiss(reg: seq<Entry>, e: Entry)
    requires IndexOfName(reg, e.name).None?
    ensures IndexOfName(reg + [e], e.name) == Some(|reg|)
  {
    assert forall j :: 0 <= j < |reg| ==> (reg + [e])[j] == reg[j];
    assert (reg + [e])[|reg|].name == e.name;
  }

  /**
   * Idempotence: once `Symbol.for(k1)` has run, `Symbol.for(k2)` for a key
   * with the same string form returns the same symbol and leaves the
   * registry unchanged.
   */
  lemma ForIdempotent(reg: seq<Entry>, k1: JsValue, k2: JsValue, created1: Sym, created2: Sym)
    requires JsString(k1) == JsString(k2)
    ensures var reg1 := RegistryAfterFor(reg, k1, created1);
      SymbolFor(reg1, k2, created2) == SymbolFor(reg, k1, created1) &&
      RegistryAfterFor(reg1, k2, created2) == reg1
  {
    if IndexOfName(reg, JsString(k1)).None? {
      IndexOfNameAfterMiss(reg, Entry(k1, JsString(k1), created1));
    }
  }

  /** A symbol whose identity is new to the registry is found at the entry appended for it. */
  lemma IndexOfSymbolAfterFresh(reg: seq<Entry>, e: Entry)
    requires forall j :: 0 <= j < |reg| ==> reg[j].symbol.id != e.symbol.id
    ensures IndexOfSymbol(reg + [e], e.symbol) == Some(|reg|)
  {
    assert forall j :: 0 <= j < |reg| ==> (reg + [e])[j] == reg[j];
    assert (reg + [e])[|reg|].symbol == e.symbol;
  }

  /**
   * `keyFor(Symbol.for(k))` returns a key with the string form of `k`, and
   * `k` itself when that call created the entry.
   */
  lemma KeyForAfterFor(reg: seq<Entry>, k: JsValue, created: Sym)
    requires RegistryWellFormed(reg)
    requires forall j :: 0 <= j < |reg| ==> reg[j].symbol.id != created.id
    ensures var after := RegistryAfterFor(reg, k, created);
      var found := KeyOf(after, SymbolFor(reg, k, created));
      found.Some? && JsString(found.value) == JsString(k)
    ensures IndexOfName(reg, JsString(k)).None? ==>
      KeyOf(RegistryAfterFor(reg, k, created), SymbolFor(reg, k, created)) == Some(k)
  {
    var name := JsString(k);
    match IndexOfName(reg, name)
    case Some(i) =>
      var sym := reg[i].symbol;
      assert RegistryAfterFor(reg, k, created) == reg;
      assert SymbolFor(reg, k, created) == sym;
      forall j | 0 <= j < |reg| && j != i
        ensures reg[j].symbol != sym
      {
        if j < i {
          assert reg[j].symbol.id != reg[i].symbol.id;
        } else {
          assert reg[i].symbol.id != reg[j].symbol.id;
        }
      }
      var found := IndexOfSymbol(reg, sym);
      assert found == Some(i);
      assert KeyOf(reg, sym) == Some(reg[i].key);
      assert reg[i].name == JsString(reg[i].key);
    case None =>
      IndexOfSymbolAfterFresh(reg, Entry(k, name, created));
  }

  /** `Symbol.for` keeps the registry well formed when the symbol it may create is new. */
  lemma ForKeepsWellFormed(reg: seq<Entry>, k: JsValue, created: Sym)
    requires RegistryWellFormed(reg)
    requires forall j :: 0 <= j < |reg| ==> reg[j].symbol.id != created.id
    ensures RegistryWellFormed(RegistryAfterFor(reg, k, created))
  {
  }

  // ---------------------------------------------------------------------------
  // The registry lookup as written
  // ---------------------------------------------------------------------------

  /** The name of the slot that holds the key: `getRegistryName('key')`. */
  const KeySlot: string := RegistryName("key")

  /** The name of the slot that holds the symbol: `getRegistryName('symbol')`. */
  const SymbolSlot: string := RegistryName("symbol")

  /**
   * The object literal `Symbol.for` pushes: three computed property names,
   * written in order, so a later name that equals an earlier one overwrites it.
   */
  function EntryObject(e: Entry): map<string, JsValue> {
    map[KeySlot := e.key][RegistryName(e.name) := Str(e.name)][SymbolSlot := SymbolObject(e.symbol)]
  }

  /** Property read on such an object: undefined when the property is absent. */
  function Get(o: map<string, JsValue>, p: string): JsValue {
    if p in o then o[p] else Undefined
  }

  /**
   * The search loop of `Symbol.for` as written, for `name == String(key)`:
   * the first entry whose property named after `name` is the same value as
   * `name`.
   */
  function IndexOfNameAsWritten(reg: seq<Entry>, name: string): (r: Option<nat>)
    ensures r.Some? ==> r.value < |reg|
    decreases |reg|
  {
    if reg == [] then None
    else if IsSameValue(Get(EntryObject(reg[0]), RegistryName(name)), Str(name)) then Some(0)
    else match IndexOfNameAsWritten(reg[1..], name)
      case None => None
      case Some(i) => Some(i + 1)
  }

  /**
   * As written, `Symbol.for` never finds an entry for a key whose string form
   * is "symbol": that entry's name slot is the symbol slot, which the literal
   * fills last with the symbol object.  Each such call appends a new entry and
   * returns a new symbol.
   */
  lemma {:induction false} ForSymbolKeyNeverFoundAsWritten(reg: seq<Entry>, key: JsValue)
    requires JsString(key) == "symbol"
    ensures IndexOfNameAsWritten(reg, JsString(key)) == None
  {
    SymbolNameNeverFoundAsWritten(reg);
  }

  lemma {:induction false} SymbolNameNeverFoundAsWritten(reg: seq<Entry>)
    ensures IndexOfNameAsWritten(reg, "symbol") == None
  {
    if reg != [] {
      assert RegistryName("symbol") == SymbolSlot;
      assert Get(EntryObject(reg[0]), SymbolSlot) == SymbolObject(reg[0].symbol);
      SymbolNameNeverFoundAsWritten(reg[1..]);
    }
  }

  /** The symbol `Symbol.for(key)` returns as written; `created` is the one a miss creates. */
  function SymbolForAsWritten(reg: seq<Entry>, key: JsValue, created: Sym): Sym {
    match IndexOfNameAsWritten(reg, JsString(key))
    case Some(i) => reg[i].symbol
    case None => created
  }

  /** The registry after `Symbol.for(key)` as written. */
  function RegistryAfterForAsWritten(reg: seq<Entry>, key: JsValue, created: Sym): seq<Entry> {
    if IndexOfNameAsWritten(reg, JsString(key)).Some? then reg
    else reg + [Entry(key, JsString(key), created)]
  }

  /**
   * As written, two calls of `Symbol.for` with a key whose string form is
   * "symbol" append two entries and return the two different symbols they
   * created.
   */
  lemma ForSymbolKeyTwiceAsWritten(reg: seq<Entry>, key: JsValue, created1: Sym, created2: Sym)
    requires JsString(key) == "symbol"
    ensures var reg1 := RegistryAfterForAsWritten(reg, key, created1);
      SymbolForAsWritten(reg, key, created1) == created1 &&
      SymbolForAsWritten(reg1, key, created2) == created2 &&
      RegistryAfterForAsWritten(reg1, key, created2) ==
        reg + [Entry(key, "symbol", created1), Entry(key, "symbol", created2)]
  {
    ForSymbolKeyNeverFoundAsWritten(reg, key);
    ForSymbolKeyNeverFoundAsWritten(RegistryAfterForAsWritten(reg, key, created1), key);
  }

  /** For every other key, `Symbol.for` as written returns and stores what the corrected one does. */
  lemma ForAsWrittenAgrees(reg: seq<Entry>, key: JsValue, created: Sym)
    requires forall i :: 0 <= i < |reg| ==> reg[i].name == JsString(reg[i].key)
    requires JsString(key) != "symbol"
    ensures SymbolForAsWritten(reg, key, created) == SymbolFor(reg, key, created)
    ensures RegistryAfterForAsWritten(reg, key, created) == RegistryAfterFor(reg, key, created)
  {
    IndexOfNameAsWrittenAgrees(reg, JsString(key));
  }

  /** One entry matches in the as-written search exactly when it stores the name. */
  lemma EntryMatchesAsWritten(e: Entry, name: string)
    requires e.name == JsString(e.key)
    requires name != "symbol"
    ensures IsSameValue(Get(EntryObject(e), RegistryName(name)), Str(name)) <==> e.name == name
  {
    var o := EntryObject(e);
    if e.name == name {
      assert RegistryName(name) != SymbolSlot by {
        if RegistryName(name) == SymbolSlot { RegistryNameInjective(name, "symbol"); }
      }
      assert Get(o, RegistryName(name)) == Str(name);
    } else {
      assert RegistryName(name) != SymbolSlot by {
        if RegistryName(name) == SymbolSlot { RegistryNameInjective(name, "symbol"); }
      }
      assert RegistryName(name) != RegistryName(e.name) by {
        if RegistryName(name) == RegistryName(e.name) { RegistryNameInjective(name, e.name); }
      }
      if RegistryName(name) == KeySlot {
        RegistryNameInjective(name, "key");
        assert Get(o, RegistryName(name)) == e.key;
        assert JsString(Str(name)) == name;
      } else {
        assert Get(o, RegistryName(name)) == Undefined;
      }
    }
  }

  /** For every other key the as-written search agrees with the corrected one. */
  lemma {:induction false} IndexOfNameAsWrittenAgrees(reg: seq<Entry>, name: string)
    requires forall i :: 0 <= i < |reg| ==> reg[i].name == JsString(reg[i].key)
    requires name != "symbol"
    ensures IndexOfNameAsWritten(reg, name) == IndexOfName(reg, name)
    decreases |reg|
  {
    if reg != [] {
      EntryMatchesAsWritten(reg[0], name);
      var rest := reg[1..];
      assert forall i :: 0 <= i < |rest| ==> rest[i] == reg[i + 1];
      IndexOfNameAsWrittenAgrees(rest, name);
    }
  }

  // ---------------------------------------------------------------------------
  // The `typeOf` helper
  // ---------------------------------------------------------------------------

  /**
   * The prototype objects of this module: `Symbol.prototype` of the class
   * `Symbol`, `_Symbol.prototype` of the exported function, and
   * `Object.prototype`.
   */
  datatype Prototype = SymbolClassPrototype | SymbolFunctionPrototype | ObjectPrototype

  /**
   * The prototype chain of a value.  A polyfilled symbol is made by `new
   * Symbol(...)` inside `_Symbol`, so its chain starts at the class's
   * prototype.  The only expression here that would make an object on
   * `_Symbol.prototype` is `new _Symbol(...)`, which throws before the object
   * escapes, so every other object is an ordinary one.  Primitives have no chain.
   */
  function PrototypeChain(v: JsValue): seq<Prototype> {
    match v
    case SymbolObject(_) => [SymbolClassPrototype, ObjectPrototype]
    case PlainObject(_) => [ObjectPrototype]
    case _ => []
  }

  /** `v instanceof F`, where `proto` is `F.prototype`: it lies on the chain of `v`. */
  function InstanceOf(v: JsValue, proto: Prototype): bool {
    proto in PrototypeChain(v)
  }

  /** JavaScript truthiness. */
  function Truthy(v: JsValue): bool {
    match v
    case Undefined => false
    case Null => false
    case Bool(b) => b
    case Num(n) => n != 0
    case Str(s) => s != ""
    case SymbolObject(_) => true
    case PlainObject(_) => true
  }

  /** `typeOf(object)` as written: "symbol" for a truthy object that is an instance of `_Symbol`. */
  function TypeOfAsWritten(v: JsValue): string {
    if Truthy(v) && RawTypeOf(v) == "object" && InstanceOf(v, SymbolFunctionPrototype) then "symbol"
    else RawTypeOf(v)
  }

  /**
   * As written, `typeOf` never answers "symbol": no value has
   * `_Symbol.prototype` on its chain, so a polyfilled symbol is reported as
   * "object", where the intended `typeOf` answers "symbol".
   */
  lemma TypeOfAsWrittenMissesSymbols(s: Sym)
    ensures TypeOfAsWritten(SymbolObject(s)) == "object"
    ensures TypeOf(SymbolObject(s)) == "symbol"
    ensures forall v :: TypeOfAsWritten(v) == RawTypeOf(v)
  {
    forall v
      ensures TypeOfAsWritten(v) == RawTypeOf(v)
    {
      assert SymbolFunctionPrototype !in PrototypeChain(v);
    }
  }

  /** `typeOf` as intended: "symbol" exactly for polyfilled symbols, `typeof` otherwise. */
  function TypeOf(v: JsValue): (r: string)
    ensures r == "symbol" <==> v.SymbolObject?
    ensures !v.SymbolObject? ==> r == RawTypeOf(v)
  {
    if v.SymbolObject? then "symbol" else RawTypeOf(v)
  }

  // ---------------------------------------------------------------------------
  // Property-name filters
  // ---------------------------------------------------------------------------

  /** An own property of an object, as `Object.getOwnPropertyNames` and `Object.keys` see it. */
  datatype OwnProperty = OwnProperty(name: string, enumerable: bool)

  /** `Object.getOwnPropertyNames(object)`: every own name, in order. */
  function AllNames(props: seq<OwnProperty>): (r: seq<string>)
    ensures |r| == |props| && forall i :: 0 <= i < |r| ==> r[i] == props[i].name
  {
    if props == [] then [] else [props[0].name] + AllNames(props[1..])
  }

  /** `Object.keys(object)`: the enumerable own names, in order. */
  function EnumerableNames(props: seq<OwnProperty>): seq<string> {
    if props == [] then []
    else (if props[0].enumerable then [props[0].name] else []) + EnumerableNames(props[1..])
  }

  /** The names that do not stand for symbols, in order. */
  function HideSymbolNames(names: seq<string>, symbolMap: map<string, Sym>): (r: seq<string>)
    ensures |r| <= |names|
    ensures forall n :: n in r <==> n in names && n !in symbolMap
  {
    if names == [] then []
    else (if names[0] in symbolMap then [] else [names[0]]) + HideSymbolNames(names[1..], symbolMap)
  }

  /** The symbols recorded under the names that stand for symbols, in order. */
  function SymbolsNamed(names: seq<string>, symbolMap: map<string, Sym>): (r: seq<Sym>)
    ensures |r| <= |names|
    ensures forall s :: s in r ==> exists n :: n in names && n in symbolMap && symbolMap[n] == s
    ensures forall n :: n in names && n in symbolMap ==> symbolMap[n] in r
  {
    if names == [] then []
    else (if names[0] in symbolMap then [symbolMap[names[0]]] else []) + SymbolsNamed(names[1..], symbolMap)
  }

  /**
   * The filter works name by name and keeps the order: filtering a
   * concatenation concatenates the filtered parts, and one name is kept
   * exactly when it does not stand for a symbol.
   */
  lemma {:induction false} HideSymbolNamesAppend(a: seq<string>, b: seq<string>, symbolMap: map<string, Sym>)
    ensures HideSymbolNames(a + b, symbolMap) == HideSymbolNames(a, symbolMap) + HideSymbolNames(b, symbolMap)
    decreases |a|
  {
    if a == [] {
      assert a + b == b;
    } else {
      assert (a + b)[0] == a[0];
      assert (a + b)[1..] == a[1..] + b;
      HideSymbolNamesAppend(a[1..], b, symbolMap);
    }
  }

  /**
   * The reduce works name by name and keeps the order: collecting over a
   * concatenation concatenates the collected parts, and one name contributes
   * its symbol exactly when it stands for one.
   */
  lemma {:induction false} SymbolsNamedAppend(a: seq<string>, b: seq<string>, symbolMap: map<string, Sym>)
    ensures SymbolsNamed(a + b, symbolMap) == SymbolsNamed(a, symbolMap) + SymbolsNamed(b, symbolMap)
    decreases |a|
  {
    if a == [] {
      assert a + b == b;
    } else {
      assert (a + b)[0] == a[0];
      assert (a + b)[1..] == a[1..] + b;
      SymbolsNamedAppend(a[1..], b, symbolMap);
    }
  }

  /** One name alone is kept by the filter, or turned into its symbol by the reduce, exactly when the filter says so. */
  lemma FiltersOfOneName(n: string, symbolMap: map<string, Sym>)
    ensures HideSymbolNames([n], symbolMap) == if n in symbolMap then [] else [n]
    ensures SymbolsNamed([n], symbolMap) == if n in symbolMap then [symbolMap[n]] else []
  {
    assert [n][1..] == [];
  }

  /**
   * Every name goes to exactly one of the two filters: a name that does not
   * stand for a symbol is kept by the first, a name that does is replaced by
   * its symbol in the second, and the two results together are as long as
   * the names.
   */
  lemma {:induction false} FiltersPartitionNames(names: seq<string>, symbolMap: map<string, Sym>)
    ensures |HideSymbolNames(names, symbolMap)| + |SymbolsNamed(names, symbolMap)| == |names|
    ensures forall i :: 0 <= i < |names| ==>
      (names[i] in HideSymbolNames(names, symbolMap) <==> names[i] !in symbolMap)
    ensures forall i :: 0 <= i < |names| && names[i] in symbolMap ==>
      symbolMap[names[i]] in SymbolsNamed(names, symbolMap)
  {
    if names != [] {
      FiltersPartitionNames(names[1..], symbolMap);
    }
  }

  /** The names `Object.prototype` gives every plain object, such as `symbolMap`. */
  const ObjectPrototypeNames: set<string> := {
    "constructor", "hasOwnProperty", "isPrototypeOf", "propertyIsEnumerable",
    "toLocaleString", "toString", "valueOf", "__proto__", "__defineGetter__",
    "__defineSetter__", "__lookupGetter__", "__lookupSetter__"
  }

  /** What `symbolMap[name]` reads on the plain object `{}`. */
  datatype MapRead = OwnSymbol(sym: Sym) | InheritedMember(name: string) | Missing

  function ReadSymbolMap(symbolMap: map<string, Sym>, name: string): MapRead {
    if name in symbolMap then OwnSymbol(symbolMap[name])
    else if name in ObjectPrototypeNames then InheritedMember(name)
    else Missing
  }

  /** The `filter` of `getOwnPropertyNames` and `keys` as written: it keeps names whose read is falsy. */
  function HideSymbolNamesAsWritten(names: seq<string>, symbolMap: map<string, Sym>): seq<string> {
    if names == [] then []
    else
      var kept := if ReadSymbolMap(symbolMap, names[0]).Missing? then [names[0]] else [];
      kept + HideSymbolNamesAsWritten(names[1..], symbolMap)
  }

  /** The `reduce` of `getOwnPropertySymbols` as written: it pushes every truthy read. */
  function SymbolsNamedAsWritten(names: seq<string>, symbolMap: map<string, Sym>): seq<MapRead> {
    if names == [] then []
    else
      var read := ReadSymbolMap(symbolMap, names[0]);
      var pushed := if read.Missing? then [] else [read];
      pushed + SymbolsNamedAsWritten(names[1..], symbolMap)
  }

  /**
   * As written, an own property named like a member of `Object.prototype`
   * (`toString`, `constructor`, ...) is dropped from `keys` and
   * `getOwnPropertyNames`, and an inherited member is pushed into the result
   * of `getOwnPropertySymbols` in place of a symbol.
   */
  lemma {:induction false} InheritedNamesMisreadAsWritten(names: seq<string>, symbolMap: map<string, Sym>, n: string)
    requires n in names && n in ObjectPrototypeNames && n !in symbolMap
    ensures n !in HideSymbolNamesAsWritten(names, symbolMap)
    ensures InheritedMember(n) in SymbolsNamedAsWritten(names, symbolMap)
    ensures n in HideSymbolNames(names, symbolMap)
  {
    if names[0] != n {
      InheritedNamesMisreadAsWritten(names[1..], symbolMap, n);
    }
    NotInHiddenAsWritten(names, symbolMap, n);
  }

  lemma {:induction false} NotInHiddenAsWritten(names: seq<string>, symbolMap: map<string, Sym>, n: string)
    requires n in ObjectPrototypeNames && n !in symbolMap
    ensures n !in HideSymbolNamesAsWritten(names, symbolMap)
  {
    if names != [] {
      NotInHiddenAsWritten(names[1..], symbolMap, n);
    }
  }

  /** With no such name among the own properties, the filters as written agree with the corrected ones. */
  lemma {:induction false} FiltersAsWrittenAgree(names: seq<string>, symbolMap: map<string, Sym>)
    requires forall i :: 0 <= i < |names| ==> names[i] !in ObjectPrototypeNames
    ensures HideSymbolNamesAsWritten(names, symbolMap) == HideSymbolNames(names, symbolMap)
    ensures |SymbolsNamedAsWritten(names, symbolMap)| == |SymbolsNamed(names, symbolMap)|
    ensures forall i :: 0 <= i < |SymbolsNamed(names, symbolMap)| ==>
      SymbolsNamedAsWritten(names, symbolMap)[i] == OwnSymbol(SymbolsNamed(names, symbolMap)[i])
  {
    HiddenAsWrittenAgree(names, symbolMap);
    CollectedAsWrittenAgree(names, symbolMap);
  }

  lemma {:induction false} HiddenAsWrittenAgree(names: seq<string>, symbolMap: map<string, Sym>)
    requires forall i :: 0 <= i < |names| ==> names[i] !in ObjectPrototypeNames
    ensures HideSymbolNamesAsWritten(names, symbolMap) == HideSymbolNames(names, symbolMap)
    decreases |names|
  {
    if names != [] {
      var rest := names[1..];
      assert forall i :: 0 <= i < |rest| ==> rest[i] == names[i + 1];
      HiddenAsWrittenAgree(rest, symbolMap);
    }
  }

  lemma {:induction false} CollectedAsWrittenAgree(names: seq<string>, symbolMap: map<string, Sym>)
    requires forall i :: 0 <= i < |names| ==> names[i] !in ObjectPrototypeNames
    ensures |SymbolsNamedAsWritten(names, symbolMap)| == |SymbolsNamed(names, symbolMap)|
    ensures forall i :: 0 <= i < |SymbolsNamed(names, symbolMap)| ==>
      SymbolsNamedAsWritten(names, symbolMap)[i] == OwnSymbol(SymbolsNamed(names, symbolMap)[i])
    decreases |names|
  {
    if names != [] {
      var rest := names[1..];
      assert forall i :: 0 <= i < |rest| ==> rest[i] == names[i + 1];
      CollectedAsWrittenAgree(rest, symbolMap);
      var head := if names[0] in symbolMap then [symbolMap[names[0]]] else [];
      var headRead := if names[0] in symbolMap then [OwnSymbol(symbolMap[names[0]])] else [];
      assert SymbolsNamed(names, symbolMap) == head + SymbolsNamed(rest, symbolMap);
      assert SymbolsNamedAsWritten(names, symbolMap) == headRead + SymbolsNamedAsWritten(rest, symbolMap);
    }
  }

  // ---------------------------------------------------------------------------
  // The module's mutable state: `globalRegistry` and `symbolMap`
  // ---------------------------------------------------------------------------

  class Realm {
    /** `globalRegistry`, searched linearly and appended to on a miss. */
    var registry: seq<Entry>
    /** `symbolMap`: every symbol created, under its string form. */
    var symbolMap: map<string, Sym>
    /** The identity the next `Symbol` object receives. */
    var nextId: nat

    ghost predicate Valid()
      reads this
    {
      RegistryWellFormed(registry) &&
      (forall i :: 0 <= i < |registry| ==> registry[i].symbol.id < nextId) &&
      (forall n :: n in symbolMap ==> symbolMap[n].id < nextId)
    }

    constructor ()
      ensures Valid() && registry == [] && symbolMap == map[] && nextId == 0
    {
      registry := [];
      symbolMap := map[];
      nextId := 0;
    }

    /**
     * `new Symbol(description)`: a created object whose description is
     * `String(description)` (none for undefined) and whose data is
     * `unique(128)`, recorded in `symbolMap` under its string form.
     */
    method NewSymbol(description: JsValue, coins: seq<bool>) returns (s: Sym)
      requires Valid() && |coins| == 128
      modifies this
      ensures Valid()
      ensures s == FreshSymbol(old(nextId), description, coins)
      ensures nextId == old(nextId) + 1 && registry == old(registry)
      ensures symbolMap == old(symbolMap)[SymbolToString(s) := s]
    {
      s := FreshSymbol(nextId, description, coins);
      nextId := nextId + 1;
      symbolMap := symbolMap[SymbolToString(s) := s];
    }

    /** `_Symbol(description)`: refuses `new`, otherwise creates a symbol. */
    method CallSymbol(calledWithNew: bool, description: JsValue, coins: seq<bool>) returns (r: Result<Sym, TypeError>)
      requires Valid() && |coins| == 128
      modifies this
      ensures Valid()
      ensures calledWithNew ==> r == Err(TypeError("Symbol cannot be a constructor")) && unchanged(this)
      ensures !calledWithNew ==> r == Ok(FreshSymbol(old(nextId), description, coins))
      ensures !calledWithNew ==> nextId == old(nextId) + 1 && registry == old(registry)
      ensures !calledWithNew ==> symbolMap == old(symbolMap)[SymbolToString(r.value) := r.value]
    {
      if calledWithNew {
        return Err(TypeError("Symbol cannot be a constructor"));
      }
      var s := NewSymbol(description, coins);
      r := Ok(s);
    }

    /** The search loop of `Symbol.for`. */
    method FindName(name: string) returns (found: Option<nat>)
      ensures found == IndexOfName(registry, name)
    {
      var index := 0;
      while index < |registry|
        invariant 0 <= index <= |registry|
        invariant forall j :: 0 <= j < index ==> registry[j].name != name
      {
        if registry[index].name == name {
          return Some(index);
        }
        index := index + 1;
      }
      found := None;
    }

    /**
     * `Symbol.for(key)`: the symbol of the entry storing `String(key)`, or a
     * new symbol described by the key, appended with the key and its string form.
     */
    method For(key: JsValue, coins: seq<bool>) returns (s: Sym)
      requires Valid() && |coins| == 128
      modifies this
      ensures Valid()
      ensures s == SymbolFor(old(registry), key, FreshSymbol(old(nextId), key, coins))
      ensures registry == RegistryAfterFor(old(registry), key, FreshSymbol(old(nextId), key, coins))
      ensures IndexOfName(old(registry), JsString(key)).Some? ==>
        nextId == old(nextId) && symbolMap == old(symbolMap)
      ensures IndexOfName(old(registry), JsString(key)).None? ==>
        nextId == old(nextId) + 1 && symbolMap == old(symbolMap)[SymbolToString(s) := s]
    {
      var name := JsString(key);
      var found := FindName(name);
      if found.Some? {
        return registry[found.value].symbol;
      }
      s := NewSymbol(key, coins);
      ForKeepsWellFormed(registry, key, s);
      registry := registry + [Entry(key, name, s)];
    }

    /**
     * `Symbol.keyFor(sym)`: a TypeError for anything but a symbol, otherwise
     * the key of the entry holding the symbol, or undefined.  `None` is the
     * undefined the function falls off with; `Some(Undefined)` is the stored
     * key of `Symbol.for(undefined)`.  JavaScript cannot tell the two apart.
     */
    method KeyFor(x: JsValue) returns (r: Result<Option<JsValue>, TypeError>)
      ensures !x.SymbolObject? ==> r == Err(TypeError("Symbol.keyFor accepts symbol arguments."))
      ensures x.SymbolObject? ==> r == Ok(KeyOf(registry, x.sym))
    {
      if !x.SymbolObject? {
        return Err(TypeError("Symbol.keyFor accepts symbol arguments."));
      }
      var index := 0;
      while index < |registry|
        invariant 0 <= index <= |registry|
        invariant forall j :: 0 <= j < index ==> registry[j].symbol != x.sym
      {
        if IsSameValue(SymbolObject(registry[index].symbol), x) {
          return Ok(Some(registry[index].key));
        }
        index := index + 1;
      }
      r := Ok(None);
    }

    /**
     * `getOwnPropertyNames(object)`: the own names that do not stand for
     * symbols, in their order (HideSymbolNamesAppend).
     */
    function GetOwnPropertyNames(props: seq<OwnProperty>): (r: seq<string>)
      reads this
      ensures r == HideSymbolNames(AllNames(props), symbolMap)
      ensures forall n :: n in r <==> n !in symbolMap && exists i :: 0 <= i < |props| && props[i].name == n
    {
      HideSymbolNames(AllNames(props), symbolMap)
    }

    /**
     * `keys(object)`: the enumerable own names that do not stand for
     * symbols, in their order (HideSymbolNamesAppend).
     */
    function Keys(props: seq<OwnProperty>): (r: seq<string>)
      reads this
      ensures r == HideSymbolNames(EnumerableNames(props), symbolMap)
      ensures forall n :: n in r <==> n !in symbolMap && n in EnumerableNames(props)
    {
      HideSymbolNames(EnumerableNames(props), symbolMap)
    }

    /** `getOwnPropertySymbols(object)`: the accumulator loop of its `reduce`. */
    method GetOwnPropertySymbols(props: seq<OwnProperty>) returns (symbols: seq<Sym>)
      ensures symbols == SymbolsNamed(AllNames(props), symbolMap)
    {
      var names := AllNames(props);
      symbols := [];
      var index := 0;
      while index < |names|
        invariant 0 <= index <= |names|
        invariant symbols + SymbolsNamed(names[index..], symbolMap) == SymbolsNamed(names, symbolMap)
      {
        assert names[index..] == [names[index]] + names[index + 1..];
        if names[index] in symbolMap {
          symbols := symbols + [symbolMap[names[index]]];
        }
        index := index + 1;
      }
    }
  }
}
