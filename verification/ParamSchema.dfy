/** The declared shape of a JSON-valued parameter: the walk that accepts a declaration,
    the walk that checks a value against it, and what an accepted shape means. */
module ParamSchema {
  import opened Prelude

  // ---- JSON as it is decoded --------------------------------------------------

  /** A decoded string may hold surrogates that pair with nothing. */
  datatype Char = Scalar(c: char) | LoneSurrogate(code: nat)

  type Text = seq<Char>

  datatype Json =
    | Null
    | Bool(b: bool)
    | Int(n: int)
    | Float
    | Str(text: Text)
    | Arr(items: seq<Json>)
    | Obj(fields: seq<Field>)

  datatype Field = Field(key: Text, value: Json)

  /** The first field of that key, or how many fields there are. */
  function Find(fields: seq<Field>, key: Text): (k: nat)
    ensures k <= |fields|
    ensures k < |fields| ==> fields[k].key == key
    ensures forall j :: 0 <= j < k ==> fields[j].key != key
  {
    if fields == [] || fields[0].key == key then 0 else 1 + Find(fields[1..], key)
  }

  predicate Has(fields: seq<Field>, key: Text) { Find(fields, key) < |fields| }

  function Get(fields: seq<Field>, key: Text): Json
    requires Has(fields, key)
  {
    fields[Find(fields, key)].value
  }

  function Plain(s: string): (t: Text)
    ensures |t| == |s| && forall i :: 0 <= i < |s| ==> t[i] == Scalar(s[i])
  {
    seq(|s|, i requires 0 <= i < |s| => Scalar(s[i]))
  }

  const TYPE: Text := Plain("type")
  const NULLABLE: Text := Plain("nullable")
  const KEYS: Text := Plain("keys")
  const REQUIRED: Text := Plain("required")
  const ENTRIES: Text := Plain("entries")
  const KEY_PATTERN: Text := Plain("key_pattern")
  const VALUE: Text := Plain("value")
  const ITEMS: Text := Plain("items")
  const MAX_ITEMS: Text := Plain("max_items")
  const PATTERN: Text := Plain("pattern")
  const MAX_BYTES: Text := Plain("max_bytes")
  const MIN: Text := Plain("min")
  const MAX: Text := Plain("max")

  const OBJECT: Text := Plain("object")
  const ARRAY: Text := Plain("array")
  const STRING: Text := Plain("string")
  const INTEGER: Text := Plain("integer")
  const BOOLEAN: Text := Plain("boolean")

  /** The regex engine: what compiling a pattern does, and whole-string matches. */
  datatype Compiled = Compiles | BadPattern | Overflows

  datatype Regex = Regex(compile: Text -> Compiled, full: (Text, Text) -> bool)

  /** The bytes a string encodes to; None when it cannot be encoded. */
  function Utf8Length(t: Text): Option<nat> {
    if t == [] then Some(0)
    else if t[0].LoneSurrogate? then None
    else
      var rest := Utf8Length(t[1..]);
      if rest.None? then None else Some(rest.value + ScalarLength(t[0].c as int))
  }

  function ScalarLength(c: int): nat {
    if c < 0x80 then 1 else if c < 0x800 then 2 else if c < 0x1_0000 then 3 else 4
  }

  // ---- Walks ------------------------------------------------------------------

  /** No problem, a problem to report, or an exception. */
  datatype Verdict = Fine | Breaks | Raises

  /** Both are evaluated before either is reported. */
  function Both(a: Verdict, b: Verdict): Verdict {
    if a.Raises? || b.Raises? then Raises else if a.Breaks? || b.Breaks? then Breaks else Fine
  }

  function Rule(ok: bool): Verdict { if ok then Fine else Breaks }

  /** Known keys per type. */
  function Allowed(kind: Text): set<Text> {
    {TYPE, NULLABLE} +
    if kind == OBJECT then {KEYS, REQUIRED, ENTRIES}
    else if kind == ARRAY then {ITEMS, MAX_ITEMS}
    else if kind == STRING then {PATTERN, MAX_BYTES}
    else if kind == INTEGER then {MIN, MAX}
    else {}
  }

  predicate Kind(t: Text) { t in {OBJECT, ARRAY, STRING, INTEGER, BOOLEAN} }

  predicate OnlyKeys(fields: seq<Field>, keys: set<Text>) { forall i :: 0 <= i < |fields| ==> fields[i].key in keys }

  function PatternDeclared(re: Regex, fields: seq<Field>, key: Text): Verdict {
    if !Has(fields, key) then Fine
    else if !Get(fields, key).Str? then Breaks
    else match re.compile(Get(fields, key).text)
      case Compiles => Fine
      case BadPattern => Breaks
      case Overflows => Raises
  }

  predicate IntOrAbsent(fields: seq<Field>, key: Text) { Has(fields, key) ==> Get(fields, key).Int? }

  /** The rules every node shares. */
  function NodeDeclared(re: Regex, fields: seq<Field>, kind: Text): Verdict {
    Both(PatternDeclared(re, fields, PATTERN),
         Rule(&& OnlyKeys(fields, Allowed(kind))
              && (Has(fields, NULLABLE) ==> Get(fields, NULLABLE).Bool?)
              && IntOrAbsent(fields, MAX_ITEMS) && IntOrAbsent(fields, MAX_BYTES)
              && IntOrAbsent(fields, MIN) && IntOrAbsent(fields, MAX)))
  }

  predicate Hashable(j: Json) { !j.Arr? && !j.Obj? }

  /** Scans until a name is not declared; asking that of a list or an object raises. */
  function RequiredDeclared(required: seq<Json>, keys: seq<Field>): Verdict {
    if required == [] then Fine
    else if !Hashable(required[0]) then Raises
    else if !required[0].Str? || !Has(keys, required[0].text) then Breaks
    else RequiredDeclared(required[1..], keys)
  }

  function Declared(re: Regex, schema: Json): Verdict
    decreases schema, 4
  {
    if !schema.Obj? || !Has(schema.fields, TYPE) then Breaks
    else
      var kind := Get(schema.fields, TYPE);
      if !Hashable(kind) then Raises
      else if !kind.Str? || !Kind(kind.text) then Breaks
      else
        var node := NodeDeclared(re, schema.fields, kind.text);
        if node != Fine then node
        else if kind.text == OBJECT then ObjectDeclared(re, schema)
        else if kind.text == ARRAY then
          if Has(schema.fields, ITEMS) then Declared(re, schema.fields[Find(schema.fields, ITEMS)].value) else Breaks
        else Fine
  }

  function ObjectDeclared(re: Regex, schema: Json): Verdict
    requires schema.Obj?
    decreases schema, 3
  {
    var fields := schema.fields;
    var k := Find(fields, KEYS);
    if k < |fields| && !fields[k].value.Obj? then Breaks
    else
      var shapes := if k < |fields| then KeysDeclared(re, fields[k].value, 0) else Fine;
      if shapes != Fine then shapes
      else if Has(fields, REQUIRED) && !Get(fields, REQUIRED).Arr? then Breaks
      else
        var required := if Has(fields, REQUIRED) then Get(fields, REQUIRED).items else [];
        var names := RequiredDeclared(required, KeysOf(schema));
        if names != Fine then names
        else
          var e := Find(fields, ENTRIES);
          if e == |fields| || fields[e].value.Null? then Fine else EntriesDeclared(re, fields[e].value)
  }

  /** Every declared key's shape is walked before the first problem is reported. */
  function KeysDeclared(re: Regex, keys: Json, i: nat): Verdict
    requires keys.Obj? && i <= |keys.fields|
    decreases keys, 2, |keys.fields| - i
  {
    if i == |keys.fields| then Fine
    else Both(Declared(re, keys.fields[i].value), KeysDeclared(re, keys, i + 1))
  }

  function EntriesDeclared(re: Regex, entries: Json): Verdict
    decreases entries, 1
  {
    if !entries.Obj? || !OnlyKeys(entries.fields, {KEY_PATTERN, VALUE}) then Breaks
    else
      var pattern := PatternDeclared(re, entries.fields, KEY_PATTERN);
      if pattern != Fine then pattern
      else if !Has(entries.fields, VALUE) then Breaks
      else Declared(re, entries.fields[Find(entries.fields, VALUE)].value)
  }

  function KeysOf(schema: Json): seq<Field>
    requires schema.Obj?
  {
    var k := Find(schema.fields, KEYS);
    if k < |schema.fields| && schema.fields[k].value.Obj? then schema.fields[k].value.fields else []
  }

  /** A lookup or comparison the declaration walk did not vouch for raises. */
  function Violation(re: Regex, value: Json, schema: Json): Verdict
    decreases value, 3
  {
    if !schema.Obj? || !Has(schema.fields, TYPE) || !Get(schema.fields, TYPE).Str? then Raises
    else
      var fields, kind := schema.fields, Get(schema.fields, TYPE).text;
      if value.Null? then Rule(Has(fields, NULLABLE) && Get(fields, NULLABLE) == Bool(true))
      else if kind == OBJECT then ObjectViolation(re, value, schema)
      else if kind == ARRAY then ArrayViolation(re, value, schema)
      else if kind == STRING then StringViolation(re, value, fields)
      else if kind == INTEGER then IntegerViolation(value, fields)
      else if kind == BOOLEAN then Rule(value.Bool?)
      else Raises
  }

  function ObjectViolation(re: Regex, value: Json, schema: Json): Verdict
    requires schema.Obj?
    decreases value, 2
  {
    if !value.Obj? then Breaks
    else
      var missing := if Has(schema.fields, REQUIRED) then Missing(Get(schema.fields, REQUIRED), value.fields) else Fine;
      if missing != Fine then missing else EntriesViolation(re, value, schema, 0)
  }

  function Missing(required: Json, fields: seq<Field>): Verdict {
    if !required.Arr? then Raises else MissingFrom(required.items, fields)
  }

  function MissingFrom(required: seq<Json>, fields: seq<Field>): Verdict {
    if required == [] then Fine
    else if !Hashable(required[0]) then Raises
    else if !required[0].Str? || !Has(fields, required[0].text) then Breaks
    else MissingFrom(required[1..], fields)
  }

  function EntriesViolation(re: Regex, value: Json, schema: Json, i: nat): Verdict
    requires value.Obj? && schema.Obj? && i <= |value.fields|
    decreases value, 1, |value.fields| - i
  {
    if i == |value.fields| then Fine
    else
      Both(EntryViolation(re, value.fields[i], schema), EntriesViolation(re, value, schema, i + 1))
  }

  function EntryViolation(re: Regex, field: Field, schema: Json): Verdict
    requires schema.Obj?
    decreases field, 4
  {
    match EntryShape(re, field.key, schema)
    case Use(shape) => Violation(re, field.value, shape)
    case Refuse(v) => v
  }

  datatype Chosen = Use(shape: Json) | Refuse(v: Verdict)

  /** The shape one object entry answers to: its declared key's, or the entries rule's. */
  function EntryShape(re: Regex, name: Text, schema: Json): Chosen
    requires schema.Obj?
  {
    var fields, keys := schema.fields, KeysOf(schema);
    if Has(keys, name) then Use(Get(keys, name))
    else if !Has(fields, ENTRIES) || Get(fields, ENTRIES).Null? then Refuse(Breaks)
    else if !Get(fields, ENTRIES).Obj? then Refuse(Raises)
    else
      var entries := Get(fields, ENTRIES).fields;
      if Has(entries, KEY_PATTERN) && !Get(entries, KEY_PATTERN).Null? && !Get(entries, KEY_PATTERN).Str?
      then Refuse(Raises)
      else if Has(entries, KEY_PATTERN) && Get(entries, KEY_PATTERN).Str?
              && !re.full(Get(entries, KEY_PATTERN).text, name)
      then Refuse(Breaks)
      else if !Has(entries, VALUE) then Refuse(Raises)
      else Use(Get(entries, VALUE))
  }

  function ArrayViolation(re: Regex, value: Json, schema: Json): Verdict
    requires schema.Obj?
    decreases value, 2
  {
    if !value.Arr? then Breaks
    else if !IntOrAbsent(schema.fields, MAX_ITEMS) then Raises
    else if Has(schema.fields, MAX_ITEMS) && |value.items| > Get(schema.fields, MAX_ITEMS).n then Breaks
    else if !Has(schema.fields, ITEMS) then (if value.items == [] then Fine else Raises)
    else ItemsViolation(re, value, Get(schema.fields, ITEMS), 0)
  }

  function ItemsViolation(re: Regex, value: Json, shape: Json, i: nat): Verdict
    requires value.Arr? && i <= |value.items|
    decreases value, 1, |value.items| - i
  {
    if i == |value.items| then Fine
    else Both(Violation(re, value.items[i], shape), ItemsViolation(re, value, shape, i + 1))
  }

  /** A string that matches is encoded to be measured. */
  function StringViolation(re: Regex, value: Json, fields: seq<Field>): Verdict {
    if !value.Str? then Breaks
    else if Has(fields, PATTERN) && !Get(fields, PATTERN).Str? then Raises
    else if Has(fields, PATTERN) && !re.full(Get(fields, PATTERN).text, value.text) then Breaks
    else if !Has(fields, MAX_BYTES) then Fine
    else if !Get(fields, MAX_BYTES).Int? || Utf8Length(value.text).None? then Raises
    else Rule(Utf8Length(value.text).value <= Get(fields, MAX_BYTES).n)
  }

  function IntegerViolation(value: Json, fields: seq<Field>): Verdict {
    if !value.Int? then Breaks
    else if !IntOrAbsent(fields, MIN) || !IntOrAbsent(fields, MAX) then Raises
    else Rule((Has(fields, MIN) ==> Get(fields, MIN).n <= value.n)
              && (Has(fields, MAX) ==> value.n <= Get(fields, MAX).n))
  }

  // ---- What a shape means -----------------------------------------------------

  datatype Shape = Shape(nullable: bool, kind: ShapeKind)

  datatype ShapeKind =
    | Object(keys: seq<Key>, required: seq<Text>, entries: Option<Entries>)
    | Array(items: Shape, maxItems: Option<int>)
    | String(pattern: Option<Text>, maxBytes: Option<int>)
    | Integer(min: Option<int>, max: Option<int>)
    | Boolean

  datatype Key = Key(name: Text, shape: Shape)

  datatype Entries = Entries(keyPattern: Option<Text>, value: Shape)

  predicate Declares(keys: seq<Key>, i: int, name: Text) {
    0 <= i < |keys| && keys[i].name == name && forall j :: 0 <= j < i ==> keys[j].name != name
  }

  /** The values a shape stands for. */
  ghost predicate Denotes(re: Regex, shape: Shape, value: Json)
    decreases value
  {
    if value.Null? then shape.nullable
    else match shape.kind
      case Object(keys, required, entries) =>
        && value.Obj?
        && (forall n :: n in required ==> Has(value.fields, n))
        && (forall i :: 0 <= i < |value.fields| ==> EntryDenotes(re, keys, entries, value.fields[i]))
      case Array(items, maxItems) =>
        && value.Arr?
        && (maxItems.Some? ==> |value.items| <= maxItems.value)
        && (forall i :: 0 <= i < |value.items| ==> Denotes(re, items, value.items[i]))
      case String(pattern, maxBytes) =>
        && value.Str?
        && (pattern.Some? ==> re.full(pattern.value, value.text))
        && (maxBytes.Some? ==> Utf8Length(value.text).Some? && Utf8Length(value.text).value <= maxBytes.value)
      case Integer(min, max) =>
        value.Int? && (min.Some? ==> min.value <= value.n) && (max.Some? ==> value.n <= max.value)
      case Boolean => value.Bool?
  }

  /** A declared key answers to its own shape, any other key to the entries rule. */
  ghost predicate EntryDenotes(re: Regex, keys: seq<Key>, entries: Option<Entries>, field: Field)
    decreases field
  {
    && (forall i :: Declares(keys, i, field.key) ==> Denotes(re, keys[i].shape, field.value))
    && ((forall i :: 0 <= i < |keys| ==> keys[i].name != field.key) ==>
          && entries.Some?
          && (entries.value.keyPattern.Some? ==> re.full(entries.value.keyPattern.value, field.key))
          && Denotes(re, entries.value.value, field.value))
  }

  // ---- Reading a declaration --------------------------------------------------

  function IntAt(fields: seq<Field>, key: Text): Option<int> {
    if Has(fields, key) && Get(fields, key).Int? then Some(Get(fields, key).n) else None
  }

  function TextAt(fields: seq<Field>, key: Text): Option<Text> {
    if Has(fields, key) && Get(fields, key).Str? then Some(Get(fields, key).text) else None
  }

  function Names(items: seq<Json>): seq<Text> {
    if items == [] then [] else (if items[0].Str? then [items[0].text] else []) + Names(items[1..])
  }

  /** The shape a declaration declares. */
  function Read(schema: Json): Shape
    decreases schema, 3
  {
    if !schema.Obj? || !Has(schema.fields, TYPE) then Shape(false, Boolean)
    else
      var fields, kind := schema.fields, Get(schema.fields, TYPE);
      Shape(Has(fields, NULLABLE) && Get(fields, NULLABLE) == Bool(true),
            if kind == Str(OBJECT) then
              Object(if Has(fields, KEYS) && Get(fields, KEYS).Obj? then
                       ReadKeys(fields[Find(fields, KEYS)].value.fields)
                     else [],
                     if Has(fields, REQUIRED) && Get(fields, REQUIRED).Arr? then Names(Get(fields, REQUIRED).items)
                     else [],
                     ReadEntries(schema))
            else if kind == Str(ARRAY) then
              Array(if Has(fields, ITEMS) then Read(fields[Find(fields, ITEMS)].value) else Shape(false, Boolean),
                    IntAt(fields, MAX_ITEMS))
            else if kind == Str(STRING) then String(TextAt(fields, PATTERN), IntAt(fields, MAX_BYTES))
            else if kind == Str(INTEGER) then Integer(IntAt(fields, MIN), IntAt(fields, MAX))
            else Boolean)
  }

  function ReadKeys(names: seq<Field>): (keys: seq<Key>)
    ensures |keys| == |names| && forall i :: 0 <= i < |names| ==> keys[i].name == names[i].key
    decreases names, 2
  {
    if names == [] then [] else [Key(names[0].key, Read(names[0].value))] + ReadKeys(names[1..])
  }

  function ReadEntries(schema: Json): Option<Entries>
    requires schema.Obj?
    decreases schema, 1
  {
    var e := Find(schema.fields, ENTRIES);
    if e == |schema.fields| || !schema.fields[e].value.Obj? then None
    else
      var entries := schema.fields[e].value.fields;
      var v := Find(entries, VALUE);
      if v == |entries| then None
      else Some(Entries(TextAt(entries, KEY_PATTERN), Read(schema.fields[e].value.fields[v].value)))
  }

  // ---- What an accepted declaration guarantees --------------------------------

  predicate Accepted(re: Regex, schema: Json) { Declared(re, schema).Fine? }

  predicate IsKind(schema: Json, kind: Text) {
    schema.Obj? && Has(schema.fields, TYPE) && Get(schema.fields, TYPE) == Str(kind)
  }

  lemma KindsApart()
    ensures OBJECT != ARRAY && OBJECT != STRING && OBJECT != INTEGER && OBJECT != BOOLEAN
    ensures ARRAY != STRING && ARRAY != INTEGER && ARRAY != BOOLEAN
    ensures STRING != INTEGER && STRING != BOOLEAN && INTEGER != BOOLEAN
  {
    assert OBJECT[0] == Scalar('o') && ARRAY[0] == Scalar('a') && STRING[0] == Scalar('s');
    assert INTEGER[0] == Scalar('i') && BOOLEAN[0] == Scalar('b');
  }

  lemma AcceptedNode(re: Regex, schema: Json)
    requires Accepted(re, schema)
    ensures schema.Obj? && Has(schema.fields, TYPE) && Get(schema.fields, TYPE).Str?
    ensures var fields, kind := schema.fields, Get(schema.fields, TYPE).text;
            && Kind(kind) && OnlyKeys(fields, Allowed(kind))
            && (Has(fields, NULLABLE) ==> Get(fields, NULLABLE).Bool?)
            && IntOrAbsent(fields, MAX_ITEMS) && IntOrAbsent(fields, MAX_BYTES)
            && IntOrAbsent(fields, MIN) && IntOrAbsent(fields, MAX)
            && (Has(fields, PATTERN) ==> Get(fields, PATTERN).Str?)
  {
  }

  lemma AcceptedItems(re: Regex, schema: Json)
    requires Accepted(re, schema) && IsKind(schema, ARRAY)
    ensures Has(schema.fields, ITEMS) && Accepted(re, Get(schema.fields, ITEMS))
  {
    KindsApart();
  }

  lemma {:induction false} AcceptedKeysFrom(re: Regex, keys: Json, i: nat, k: nat)
    requires keys.Obj? && i <= k < |keys.fields| && KeysDeclared(re, keys, i).Fine?
    ensures Accepted(re, keys.fields[k].value)
    decreases |keys.fields| - i
  {
    if i < k { AcceptedKeysFrom(re, keys, i + 1, k); }
  }

  lemma AcceptedKeys(re: Regex, schema: Json)
    requires Accepted(re, schema) && IsKind(schema, OBJECT)
    ensures forall i :: 0 <= i < |KeysOf(schema)| ==> Accepted(re, KeysOf(schema)[i].value)
    ensures Has(schema.fields, REQUIRED) ==>
              Get(schema.fields, REQUIRED).Arr?
              && RequiredDeclared(Get(schema.fields, REQUIRED).items, KeysOf(schema)).Fine?
  {
    assert ObjectDeclared(re, schema).Fine?;
    var k := Find(schema.fields, KEYS);
    if k < |schema.fields| {
      var keys := schema.fields[k].value;
      forall i | 0 <= i < |KeysOf(schema)|
        ensures Accepted(re, KeysOf(schema)[i].value) { AcceptedKeysFrom(re, keys, 0, i); }
    }
  }

  lemma AcceptedEntries(re: Regex, schema: Json)
    requires Accepted(re, schema) && IsKind(schema, OBJECT)
    requires Has(schema.fields, ENTRIES) && !Get(schema.fields, ENTRIES).Null?
    ensures var entries := Get(schema.fields, ENTRIES);
            && entries.Obj? && Has(entries.fields, VALUE) && Accepted(re, Get(entries.fields, VALUE))
            && (Has(entries.fields, KEY_PATTERN) ==> Get(entries.fields, KEY_PATTERN).Str?)
  {
    assert ObjectDeclared(re, schema).Fine?;
    var e := Find(schema.fields, ENTRIES);
    assert EntriesDeclared(re, schema.fields[e].value).Fine?;
  }

  /** The required names of an accepted declaration can all be looked up. */
  lemma {:induction false} MissingIsFineIff(required: seq<Json>, keys: seq<Field>, fields: seq<Field>)
    requires RequiredDeclared(required, keys).Fine?
    ensures MissingFrom(required, fields) != Raises
    ensures MissingFrom(required, fields).Fine? <==> forall n :: n in Names(required) ==> Has(fields, n)
  {
    if required != [] { MissingIsFineIff(required[1..], keys, fields); }
  }

  lemma {:induction false} ReadKeysAt(names: seq<Field>, k: nat)
    requires k < |names|
    ensures ReadKeys(names)[k].shape == Read(names[k].value)
  {
    if k > 0 { ReadKeysAt(names[1..], k - 1); }
  }

  // ---- The checking walk against the meaning ----------------------------------

  /** Some string in the value holds a surrogate that pairs with nothing. */
  predicate HasLone(value: Json) {
    match value
    case Str(t) => exists i :: 0 <= i < |t| && t[i].LoneSurrogate?
    case Arr(items) => exists i :: 0 <= i < |items| && HasLone(items[i])
    case Obj(fields) => exists i :: 0 <= i < |fields| && LoneIn(fields[i])
    case _ => false
  }

  predicate LoneIn(field: Field) { HasLone(field.value) }

  lemma {:induction false} EncodableIff(t: Text)
    ensures Utf8Length(t).None? <==> exists i :: 0 <= i < |t| && t[i].LoneSurrogate?
  {
    if t != [] {
      EncodableIff(t[1..]);
      assert forall i :: 1 <= i < |t| ==> t[i] == t[1..][i - 1];
    }
  }

  function Pow2(n: nat): nat { if n == 0 then 1 else 2 * Pow2(n - 1) }

  /** What `n` octets of UTF-8 carry (RFC 3629, section 3): 7 bits alone, or a lead octet's
      bits and 6 in each other one. */
  function PayloadBits(n: nat): nat
    requires 1 <= n <= 4
  {
    if n == 1 then 7 else 7 - n + 6 * (n - 1)
  }

  /** A character is measured as the fewest octets that can carry it. */
  lemma Utf8IsShortest(c: char)
    ensures var n := ScalarLength(c as int);
            && Utf8Length([Scalar(c)]) == Some(n) && 1 <= n <= 4 && c as int < Pow2(PayloadBits(n))
            && forall m :: 1 <= m < n ==> Pow2(PayloadBits(m)) <= c as int
  {
    assert Pow2(7) == 0x80 && Pow2(11) == 0x800;
    assert Pow2(16) == 0x1_0000 && Pow2(21) == 0x20_0000 by { assert Pow2(14) == 0x4000 && Pow2(18) == 0x4_0000; }
    assert PayloadBits(1) == 7 && PayloadBits(2) == 11 && PayloadBits(3) == 16 && PayloadBits(4) == 21;
  }

  /** A string measures what its two parts do together. */
  lemma {:induction false} Utf8LengthSplits(a: Text, b: Text)
    ensures Utf8Length(a + b).Some? <==> Utf8Length(a).Some? && Utf8Length(b).Some?
    ensures Utf8Length(a + b).Some? ==> Utf8Length(a + b).value == Utf8Length(a).value + Utf8Length(b).value
  {
    if a == [] {
      assert a + b == b;
    } else {
      assert (a + b)[1..] == a[1..] + b;
      Utf8LengthSplits(a[1..], b);
    }
  }

  /** One verdict against one meaning; an exception only on a lone surrogate. */
  ghost predicate Agrees(v: Verdict, meant: bool, lone: bool) { (v.Fine? <==> meant) && (v.Raises? ==> lone) }

  lemma BothAgree(a: Verdict, b: Verdict, meantA: bool, meantB: bool, loneA: bool, loneB: bool)
    requires Agrees(a, meantA, loneA) && Agrees(b, meantB, loneB)
    ensures Agrees(Both(a, b), meantA && meantB, loneA || loneB)
  {
  }

  /** The checking walk returns no violation exactly on the values the accepted shape
      stands for, and it is defined on every value without a lone surrogate. */
  lemma {:induction false} WalkMeansShape(re: Regex, value: Json, schema: Json)
    requires Accepted(re, schema)
    ensures Agrees(Violation(re, value, schema), Denotes(re, Read(schema), value), HasLone(value))
    decreases value, 3
  {
    AcceptedNode(re, schema);
    KindsApart();
    if value.Null? {
    } else if IsKind(schema, OBJECT) {
      ObjectMeans(re, value, schema);
    } else if IsKind(schema, ARRAY) {
      ArrayMeans(re, value, schema);
    } else if IsKind(schema, STRING) {
      StringMeans(re, value, schema);
    }
  }

  lemma StringMeans(re: Regex, value: Json, schema: Json)
    requires Accepted(re, schema) && IsKind(schema, STRING) && !value.Null?
    ensures Agrees(Violation(re, value, schema), Denotes(re, Read(schema), value), HasLone(value))
  {
    AcceptedNode(re, schema);
    KindsApart();
    if value.Str? { EncodableIff(value.text); }
  }

  lemma {:induction false} ArrayMeans(re: Regex, value: Json, schema: Json)
    requires Accepted(re, schema) && IsKind(schema, ARRAY) && !value.Null?
    ensures Agrees(Violation(re, value, schema), Denotes(re, Read(schema), value), HasLone(value))
    decreases value, 2
  {
    AcceptedNode(re, schema);
    AcceptedItems(re, schema);
    KindsApart();
    if value.Arr? { ItemsMean(re, value, Get(schema.fields, ITEMS), 0); }
  }

  ghost predicate ItemsDenote(re: Regex, shape: Shape, items: seq<Json>, i: nat) {
    forall j :: i <= j < |items| ==> Denotes(re, shape, items[j])
  }

  predicate ItemsLone(items: seq<Json>, i: nat) { exists j :: i <= j < |items| && HasLone(items[j]) }

  lemma {:induction false} ItemsMean(re: Regex, value: Json, shape: Json, i: nat)
    requires value.Arr? && i <= |value.items| && Accepted(re, shape)
    ensures Agrees(ItemsViolation(re, value, shape, i), ItemsDenote(re, Read(shape), value.items, i),
                   ItemsLone(value.items, i))
    decreases value, 1, |value.items| - i
  {
    if i < |value.items| {
      var item := value.items[i];
      WalkMeansShape(re, item, shape);
      ItemsMean(re, value, shape, i + 1);
      BothAgree(Violation(re, item, shape), ItemsViolation(re, value, shape, i + 1),
                Denotes(re, Read(shape), item), ItemsDenote(re, Read(shape), value.items, i + 1),
                HasLone(item), ItemsLone(value.items, i + 1));
    }
  }

  lemma {:induction false} ObjectMeans(re: Regex, value: Json, schema: Json)
    requires Accepted(re, schema) && IsKind(schema, OBJECT) && !value.Null?
    ensures Agrees(Violation(re, value, schema), Denotes(re, Read(schema), value), HasLone(value))
    decreases value, 2
  {
    AcceptedKeys(re, schema);
    KindsApart();
    if value.Obj? {
      EntriesMean(re, value, schema, 0);
      ObjectCombines(re, value, schema);
    }
  }

  lemma ObjectCombines(re: Regex, value: Json, schema: Json)
    requires IsKind(schema, OBJECT) && value.Obj?
    requires Has(schema.fields, REQUIRED) ==>
               Get(schema.fields, REQUIRED).Arr?
               && RequiredDeclared(Get(schema.fields, REQUIRED).items, KeysOf(schema)).Fine?
    requires Agrees(EntriesViolation(re, value, schema, 0),
                    EntriesDenote(re, ReadKeys(KeysOf(schema)), ReadEntries(schema), value.fields, 0),
                    EntriesLone(value.fields, 0))
    ensures Agrees(Violation(re, value, schema), Denotes(re, Read(schema), value), HasLone(value))
  {
    if Has(schema.fields, REQUIRED) {
      MissingIsFineIff(Get(schema.fields, REQUIRED).items, KeysOf(schema), value.fields);
    }
    assert Violation(re, value, schema) == ObjectViolation(re, value, schema);
    assert EntriesLone(value.fields, 0) ==> HasLone(value);
  }

  ghost predicate EntriesDenote(re: Regex, keys: seq<Key>, entries: Option<Entries>, fields: seq<Field>, i: nat) {
    forall j :: i <= j < |fields| ==> EntryDenotes(re, keys, entries, fields[j])
  }

  predicate EntriesLone(fields: seq<Field>, i: nat) { exists j :: i <= j < |fields| && LoneIn(fields[j]) }

  lemma {:induction false} EntriesMean(re: Regex, value: Json, schema: Json, i: nat)
    requires value.Obj? && i <= |value.fields| && Accepted(re, schema) && IsKind(schema, OBJECT)
    ensures Agrees(EntriesViolation(re, value, schema, i),
                   EntriesDenote(re, ReadKeys(KeysOf(schema)), ReadEntries(schema), value.fields, i),
                   EntriesLone(value.fields, i))
    decreases value, 1, |value.fields| - i
  {
    if i < |value.fields| {
      var field, keys, entries := value.fields[i], ReadKeys(KeysOf(schema)), ReadEntries(schema);
      EntryMeans(re, field, schema);
      EntriesMean(re, value, schema, i + 1);
      BothAgree(EntryViolation(re, field, schema), EntriesViolation(re, value, schema, i + 1),
                EntryDenotes(re, keys, entries, field), EntriesDenote(re, keys, entries, value.fields, i + 1),
                LoneIn(field), EntriesLone(value.fields, i + 1));
    }
  }

  lemma {:induction false} EntryMeans(re: Regex, field: Field, schema: Json)
    requires Accepted(re, schema) && IsKind(schema, OBJECT)
    ensures Agrees(EntryViolation(re, field, schema),
                   EntryDenotes(re, ReadKeys(KeysOf(schema)), ReadEntries(schema), field), LoneIn(field))
    decreases field, 4
  {
    AcceptedKeys(re, schema);
    var names := KeysOf(schema);
    var k := Find(names, field.key);
    if k < |names| {
      WalkMeansShape(re, field.value, names[k].value);
      KnownKeyMeans(re, field, schema, k);
    } else {
      if Has(schema.fields, ENTRIES) && !Get(schema.fields, ENTRIES).Null? {
        AcceptedEntries(re, schema);
        WalkMeansShape(re, field.value, Get(Get(schema.fields, ENTRIES).fields, VALUE));
      }
      OtherKeyMeans(re, field, schema);
    }
  }

  lemma KnownKeyMeans(re: Regex, field: Field, schema: Json, k: nat)
    requires schema.Obj? && k == Find(KeysOf(schema), field.key) < |KeysOf(schema)|
    requires var shape := KeysOf(schema)[k].value;
             Agrees(Violation(re, field.value, shape), Denotes(re, Read(shape), field.value), HasLone(field.value))
    ensures Agrees(EntryViolation(re, field, schema),
                   EntryDenotes(re, ReadKeys(KeysOf(schema)), ReadEntries(schema), field), LoneIn(field))
  {
    ReadKeysAt(KeysOf(schema), k);
    var keys := ReadKeys(KeysOf(schema));
    assert Declares(keys, k, field.key);
    assert forall i :: Declares(keys, i, field.key) ==> i == k;
    assert EntryDenotes(re, keys, ReadEntries(schema), field) <==> Denotes(re, keys[k].shape, field.value);
  }

  lemma OtherKeyMeans(re: Regex, field: Field, schema: Json)
    requires Accepted(re, schema) && IsKind(schema, OBJECT) && !Has(KeysOf(schema), field.key)
    requires Has(schema.fields, ENTRIES) && !Get(schema.fields, ENTRIES).Null? ==>
               && Get(schema.fields, ENTRIES).Obj? && Has(Get(schema.fields, ENTRIES).fields, VALUE)
               && var shape := Get(Get(schema.fields, ENTRIES).fields, VALUE);
                  Agrees(Violation(re, field.value, shape), Denotes(re, Read(shape), field.value), HasLone(field.value))
    ensures Agrees(EntryViolation(re, field, schema),
                   EntryDenotes(re, ReadKeys(KeysOf(schema)), ReadEntries(schema), field), LoneIn(field))
  {
    var keys := ReadKeys(KeysOf(schema));
    assert forall i :: 0 <= i < |keys| ==> keys[i].name != field.key;
    OtherKeyDenotes(re, keys, ReadEntries(schema), field);
    if Has(schema.fields, ENTRIES) && !Get(schema.fields, ENTRIES).Null? {
      AcceptedEntries(re, schema);
    }
  }

  lemma OtherKeyDenotes(re: Regex, keys: seq<Key>, entries: Option<Entries>, field: Field)
    requires forall i :: 0 <= i < |keys| ==> keys[i].name != field.key
    ensures EntryDenotes(re, keys, entries, field) <==>
              && entries.Some?
              && (entries.value.keyPattern.Some? ==> re.full(entries.value.keyPattern.value, field.key))
              && Denotes(re, entries.value.value, field.value)
  {
    assert forall i :: !Declares(keys, i, field.key);
  }

  // ---- Writing a shape down ---------------------------------------------------

  function Opt(key: Text, value: Option<Json>): seq<Field> {
    if value.Some? then [Field(key, value.value)] else []
  }

  function IntJson(n: Option<int>): Option<Json> { if n.Some? then Some(Int(n.value)) else None }

  function TextJson(t: Option<Text>): Option<Json> { if t.Some? then Some(Str(t.value)) else None }

  function NamesJson(names: seq<Text>): seq<Json> {
    if names == [] then [] else [Str(names[0])] + NamesJson(names[1..])
  }

  /** A declaration of the shape. */
  function Render(shape: Shape): (schema: Json)
    ensures schema.Obj?
    decreases shape, 1
  {
    var nullable := Field(NULLABLE, Bool(shape.nullable));
    match shape.kind
    case Object(keys, required, entries) =>
      Obj([Field(TYPE, Str(OBJECT)), nullable, Field(KEYS, Obj(RenderKeys(keys))),
           Field(REQUIRED, Arr(NamesJson(required))),
           Field(ENTRIES, if entries.Some? then Obj([Field(VALUE, Render(entries.value.value))] +
                                             Opt(KEY_PATTERN, TextJson(entries.value.keyPattern)))
                          else Null)])
    case Array(items, maxItems) =>
      Obj([Field(TYPE, Str(ARRAY)), nullable, Field(ITEMS, Render(items))] + Opt(MAX_ITEMS, IntJson(maxItems)))
    case String(pattern, maxBytes) =>
      Obj([Field(TYPE, Str(STRING)), nullable] + Opt(PATTERN, TextJson(pattern)) + Opt(MAX_BYTES, IntJson(maxBytes)))
    case Integer(min, max) =>
      Obj([Field(TYPE, Str(INTEGER)), nullable] + Opt(MIN, IntJson(min)) + Opt(MAX, IntJson(max)))
    case Boolean => Obj([Field(TYPE, Str(BOOLEAN)), nullable])
  }

  function RenderKeys(keys: seq<Key>): (fields: seq<Field>)
    ensures |fields| == |keys| && forall i :: 0 <= i < |keys| ==> fields[i].key == keys[i].name
    decreases keys, 0
  {
    if keys == [] then []
    else [Field(keys[0].name, Render(keys[0].shape))] + RenderKeys(keys[1..])
  }

  ghost predicate PatternOk(re: Regex, pattern: Option<Text>) { pattern.Some? ==> re.compile(pattern.value).Compiles? }

  /** Every pattern compiles and every required name is declared. */
  ghost predicate WellFormed(re: Regex, shape: Shape)
    decreases shape
  {
    match shape.kind
    case Object(keys, required, entries) =>
      && (forall i :: 0 <= i < |keys| ==> WellFormed(re, keys[i].shape))
      && (forall n :: n in required ==> exists i :: 0 <= i < |keys| && keys[i].name == n)
      && (entries.Some? ==> PatternOk(re, entries.value.keyPattern) && WellFormed(re, entries.value.value))
    case Array(items, _) => WellFormed(re, items)
    case String(pattern, _) => PatternOk(re, pattern)
    case _ => true
  }

  lemma {:induction false} FindAppend(a: seq<Field>, b: seq<Field>, key: Text)
    ensures Find(a + b, key) == if Has(a, key) then Find(a, key) else |a| + Find(b, key)
  {
    if a == [] {
      assert a + b == b;
    } else {
      assert (a + b)[1..] == a[1..] + b;
      FindAppend(a[1..], b, key);
    }
  }

  /** No two of the declaration's own names are alike. */
  lemma KeysApart()
    ensures TYPE != NULLABLE && TYPE != KEYS && TYPE != REQUIRED && TYPE != ENTRIES && TYPE != ITEMS
              && TYPE != MAX_ITEMS
    ensures TYPE != PATTERN && TYPE != MAX_BYTES && TYPE != MIN && TYPE != MAX
    ensures NULLABLE != KEYS && NULLABLE != REQUIRED && NULLABLE != ENTRIES && NULLABLE != ITEMS
              && NULLABLE != MAX_ITEMS
    ensures NULLABLE != PATTERN && NULLABLE != MAX_BYTES && NULLABLE != MIN && NULLABLE != MAX
    ensures KEYS != REQUIRED && KEYS != ENTRIES && REQUIRED != ENTRIES && ITEMS != MAX_ITEMS
    ensures PATTERN != MAX_BYTES && PATTERN != MAX_ITEMS && PATTERN != MIN && PATTERN != MAX && PATTERN != KEYS
    ensures PATTERN != REQUIRED && PATTERN != ENTRIES && PATTERN != ITEMS
    ensures MIN != MAX && MIN != MAX_BYTES && MIN != MAX_ITEMS && MAX != MAX_BYTES && MAX != MAX_ITEMS
              && MAX_BYTES != MAX_ITEMS
    ensures KEY_PATTERN != VALUE
    ensures MIN != ITEMS && MAX != ITEMS && MAX_BYTES != ITEMS
    ensures MAX_ITEMS !in {KEYS, REQUIRED, ENTRIES} && MAX_BYTES !in {KEYS, REQUIRED, ENTRIES}
    ensures MIN !in {KEYS, REQUIRED, ENTRIES} && MAX !in {KEYS, REQUIRED, ENTRIES}
  {
    assert TYPE[0] == Scalar('t') && NULLABLE[0] == Scalar('n') && KEYS[0] == Scalar('k') && REQUIRED[0] == Scalar('r');
    assert ENTRIES[0] == Scalar('e') && ITEMS[0] == Scalar('i') && PATTERN[0] == Scalar('p') && VALUE[0] == Scalar('v');
    assert KEY_PATTERN[0] == Scalar('k') && MIN[0] == MAX[0] == MAX_ITEMS[0] == MAX_BYTES[0] == Scalar('m');
    assert MIN[1] == Scalar('i') && MAX[1] == Scalar('a') && |MIN| == |MAX| == 3;
    assert MAX_ITEMS[4] == Scalar('i') && MAX_BYTES[4] == Scalar('b') && |MAX_ITEMS| == |MAX_BYTES| == 9;
  }

  /** One optional field after others. */
  lemma OptField(head: seq<Field>, key: Text, value: Option<Json>)
    requires !Has(head, key)
    ensures var fields := head + Opt(key, value);
            && (forall k :: Has(head, k) ==> Has(fields, k) && Get(fields, k) == Get(head, k))
            && (Has(fields, key) <==> value.Some?) && (value.Some? ==> Get(fields, key) == value.value)
            && (forall k :: !Has(head, k) && k != key ==> !Has(fields, k))
  {
    var opt := Opt(key, value);
    forall k ensures Find(head + opt, k) == if Has(head, k) then Find(head, k) else |head| + Find(opt, k)
    { FindAppend(head, opt, k); }
    if value.Some? { assert opt[0] == Field(key, value.value); }
  }

  /** Two optional fields after a fixed head. */
  lemma OptFields(head: seq<Field>, k1: Text, v1: Option<Json>, k2: Text, v2: Option<Json>)
    requires k1 != k2 && !Has(head, k1) && !Has(head, k2)
    ensures var fields := head + Opt(k1, v1) + Opt(k2, v2);
            && (forall k :: Has(head, k) ==> Has(fields, k) && Get(fields, k) == Get(head, k))
            && (Has(fields, k1) <==> v1.Some?) && (v1.Some? ==> Get(fields, k1) == v1.value)
            && (Has(fields, k2) <==> v2.Some?) && (v2.Some? ==> Get(fields, k2) == v2.value)
            && (forall k :: !Has(head, k) && k != k1 && k != k2 ==> !Has(fields, k))
  {
    OptField(head, k1, v1);
    OptField(head + Opt(k1, v1), k2, v2);
  }

  /** A field's own key is one its sequence has. */
  lemma OnlyKeysIfHas(fields: seq<Field>, keys: set<Text>)
    requires forall k :: Has(fields, k) ==> k in keys
    ensures OnlyKeys(fields, keys)
  {
    assert forall i :: 0 <= i < |fields| ==> Has(fields, fields[i].key);
  }

  // ---- What the declaration walk accepts --------------------------------------

  /** The field says exactly that, or is absent where there is nothing to say. */
  predicate Says(fields: seq<Field>, key: Text, value: Option<Json>) {
    if value.None? then !Has(fields, key) else Has(fields, key) && Get(fields, key) == value.value
  }

  predicate SaysNullable(fields: seq<Field>, nullable: bool) {
    if Has(fields, NULLABLE) then Get(fields, NULLABLE) == Bool(nullable) else !nullable
  }

  /** The document writes the shape down: its type and each part of the shape, a part at
      its default perhaps left out, and nothing else. */
  predicate Spells(schema: Json, shape: Shape)
    decreases schema, 1
  {
    schema.Obj? && SaysNullable(schema.fields, shape.nullable) &&
    var fields := schema.fields;
    match shape.kind
    case Object(keys, required, entries) =>
      && OnlyKeys(fields, {TYPE, NULLABLE, KEYS, REQUIRED, ENTRIES}) && Says(fields, TYPE, Some(Str(OBJECT)))
      && (if Has(fields, KEYS) then SpellsKeys(fields[Find(fields, KEYS)].value, keys) else keys == [])
      && (if Has(fields, REQUIRED) then Get(fields, REQUIRED) == Arr(NamesJson(required)) else required == [])
      && (if Has(fields, ENTRIES) && !Get(fields, ENTRIES).Null? then
            entries.Some? && SpellsEntries(fields[Find(fields, ENTRIES)].value, entries.value)
          else entries.None?)
    case Array(items, maxItems) =>
      && OnlyKeys(fields, {TYPE, NULLABLE, ITEMS, MAX_ITEMS}) && Says(fields, TYPE, Some(Str(ARRAY)))
      && Says(fields, MAX_ITEMS, IntJson(maxItems))
      && Has(fields, ITEMS) && Spells(fields[Find(fields, ITEMS)].value, items)
    case String(pattern, maxBytes) =>
      && OnlyKeys(fields, {TYPE, NULLABLE, PATTERN, MAX_BYTES}) && Says(fields, TYPE, Some(Str(STRING)))
      && Says(fields, PATTERN, TextJson(pattern)) && Says(fields, MAX_BYTES, IntJson(maxBytes))
    case Integer(min, max) =>
      && OnlyKeys(fields, {TYPE, NULLABLE, MIN, MAX}) && Says(fields, TYPE, Some(Str(INTEGER)))
      && Says(fields, MIN, IntJson(min)) && Says(fields, MAX, IntJson(max))
    case Boolean =>
      OnlyKeys(fields, {TYPE, NULLABLE}) && Says(fields, TYPE, Some(Str(BOOLEAN)))
  }

  predicate SpellsKeys(keys: Json, shapes: seq<Key>)
    decreases keys, 0
  {
    keys.Obj? && |keys.fields| == |shapes| &&
    forall i :: 0 <= i < |shapes| ==>
      keys.fields[i].key == shapes[i].name && Spells(keys.fields[i].value, shapes[i].shape)
  }

  predicate SpellsEntries(entries: Json, rule: Entries)
    decreases entries, 0
  {
    entries.Obj? && OnlyKeys(entries.fields, {KEY_PATTERN, VALUE})
    && Says(entries.fields, KEY_PATTERN, TextJson(rule.keyPattern))
    && Has(entries.fields, VALUE) && Spells(entries.fields[Find(entries.fields, VALUE)].value, rule.value)
  }

  lemma OnlyKeysHas(fields: seq<Field>, keys: set<Text>)
    requires OnlyKeys(fields, keys)
    ensures forall k :: Has(fields, k) ==> k in keys
  {
  }

  // -- An accepted document spells the shape it is read as

  lemma AcceptedPattern(re: Regex, schema: Json)
    requires Accepted(re, schema) && Has(schema.fields, PATTERN)
    ensures Get(schema.fields, PATTERN).Str? && re.compile(Get(schema.fields, PATTERN).text).Compiles?
  {
  }

  lemma LeafSpells(re: Regex, schema: Json)
    requires Accepted(re, schema) && (IsKind(schema, STRING) || IsKind(schema, INTEGER) || IsKind(schema, BOOLEAN))
    ensures Spells(schema, Read(schema)) && WellFormed(re, Read(schema))
  {
    KeysApart();
    KindsApart();
    AcceptedNode(re, schema);
    if Has(schema.fields, PATTERN) { AcceptedPattern(re, schema); }
  }

  lemma ArraySpells(re: Regex, schema: Json)
    requires Accepted(re, schema) && IsKind(schema, ARRAY)
    requires Has(schema.fields, ITEMS)
    requires Spells(Get(schema.fields, ITEMS), Read(Get(schema.fields, ITEMS)))
    requires WellFormed(re, Read(Get(schema.fields, ITEMS)))
    ensures Spells(schema, Read(schema)) && WellFormed(re, Read(schema))
  {
    KeysApart();
    KindsApart();
    AcceptedNode(re, schema);
  }

  lemma {:induction false} RequiredSpelled(required: seq<Json>, keys: seq<Field>)
    requires RequiredDeclared(required, keys).Fine?
    ensures required == NamesJson(Names(required)) && forall n :: n in Names(required) ==> Has(keys, n)
  {
    if required != [] { RequiredSpelled(required[1..], keys); }
  }

  lemma EntriesSpell(re: Regex, schema: Json)
    requires Accepted(re, schema) && IsKind(schema, OBJECT)
    requires Has(schema.fields, ENTRIES) && !Get(schema.fields, ENTRIES).Null?
    requires var entries := Get(schema.fields, ENTRIES);
             entries.Obj? && Has(entries.fields, VALUE) &&
             var value := Get(entries.fields, VALUE); Spells(value, Read(value)) && WellFormed(re, Read(value))
    ensures ReadEntries(schema).Some? && SpellsEntries(Get(schema.fields, ENTRIES), ReadEntries(schema).value)
    ensures PatternOk(re, ReadEntries(schema).value.keyPattern) && WellFormed(re, ReadEntries(schema).value.value)
  {
    AcceptedEntries(re, schema);
    assert ObjectDeclared(re, schema).Fine?;
    assert EntriesDeclared(re, Get(schema.fields, ENTRIES)).Fine?;
  }

  lemma KeysSpell(re: Regex, schema: Json)
    requires Accepted(re, schema) && IsKind(schema, OBJECT) && Has(schema.fields, KEYS)
    requires forall k :: 0 <= k < |KeysOf(schema)| ==>
               Spells(KeysOf(schema)[k].value, Read(KeysOf(schema)[k].value))
               && WellFormed(re, Read(KeysOf(schema)[k].value))
    ensures var keys := Get(schema.fields, KEYS);
            && keys.Obj? && keys.fields == KeysOf(schema) && SpellsKeys(keys, ReadKeys(keys.fields))
            && forall k :: 0 <= k < |keys.fields| ==> WellFormed(re, ReadKeys(keys.fields)[k].shape)
  {
    assert ObjectDeclared(re, schema).Fine?;
    var keys := Get(schema.fields, KEYS);
    forall k | 0 <= k < |keys.fields| ensures ReadKeys(keys.fields)[k].shape == Read(keys.fields[k].value) {
      ReadKeysAt(keys.fields, k);
    }
  }

  /** The parts of an accepted object, put together. */
  lemma ObjectSpells(re: Regex, schema: Json)
    requires Accepted(re, schema) && IsKind(schema, OBJECT)
    requires forall k :: 0 <= k < |KeysOf(schema)| ==>
               Spells(KeysOf(schema)[k].value, Read(KeysOf(schema)[k].value))
               && WellFormed(re, Read(KeysOf(schema)[k].value))
    requires Has(schema.fields, ENTRIES) && !Get(schema.fields, ENTRIES).Null? ==>
               && ReadEntries(schema).Some? && SpellsEntries(Get(schema.fields, ENTRIES), ReadEntries(schema).value)
               && PatternOk(re, ReadEntries(schema).value.keyPattern)
               && WellFormed(re, ReadEntries(schema).value.value)
    ensures Spells(schema, Read(schema)) && WellFormed(re, Read(schema))
  {
    KeysApart();
    KindsApart();
    AcceptedNode(re, schema);
    AcceptedKeys(re, schema);
    assert ObjectDeclared(re, schema).Fine?;
    if Has(schema.fields, KEYS) { KeysSpell(re, schema); }
    if Has(schema.fields, REQUIRED) { RequiredSpelled(Get(schema.fields, REQUIRED).items, KeysOf(schema)); }
  }

  /** An accepted document spells out the shape it is read as, and that shape is good. */
  lemma {:induction false} AcceptedSpells(re: Regex, schema: Json)
    requires Accepted(re, schema)
    ensures Spells(schema, Read(schema)) && WellFormed(re, Read(schema))
    decreases schema
  {
    AcceptedNode(re, schema);
    if IsKind(schema, OBJECT) {
      AcceptedKeys(re, schema);
      var at := Find(schema.fields, KEYS);
      forall k | 0 <= k < |KeysOf(schema)|
        ensures Spells(KeysOf(schema)[k].value, Read(KeysOf(schema)[k].value))
                && WellFormed(re, Read(KeysOf(schema)[k].value))
      {
        AcceptedSpells(re, schema.fields[at].value.fields[k].value);
      }
      if Has(schema.fields, ENTRIES) && !Get(schema.fields, ENTRIES).Null? {
        AcceptedEntries(re, schema);
        var e := Find(schema.fields, ENTRIES);
        var v := Find(schema.fields[e].value.fields, VALUE);
        AcceptedSpells(re, schema.fields[e].value.fields[v].value);
        EntriesSpell(re, schema);
      }
      ObjectSpells(re, schema);
    } else if IsKind(schema, ARRAY) {
      AcceptedItems(re, schema);
      AcceptedSpells(re, schema.fields[Find(schema.fields, ITEMS)].value);
      ArraySpells(re, schema);
    } else {
      LeafSpells(re, schema);
    }
  }

  // -- A document that spells a good shape is accepted

  lemma NodeSpelled(re: Regex, fields: seq<Field>, kind: Text, keys: set<Text>)
    requires OnlyKeys(fields, keys) && keys <= Allowed(kind) && (Has(fields, NULLABLE) ==> Get(fields, NULLABLE).Bool?)
    requires PATTERN in keys && Has(fields, PATTERN) ==>
               Get(fields, PATTERN).Str? && re.compile(Get(fields, PATTERN).text).Compiles?
    requires forall k :: k in keys * {MAX_ITEMS, MAX_BYTES, MIN, MAX} ==> IntOrAbsent(fields, k)
    ensures NodeDeclared(re, fields, kind).Fine?
  {
    OnlyKeysHas(fields, keys);
    assert forall k :: k in {MAX_ITEMS, MAX_BYTES, MIN, MAX} && Has(fields, k) ==> IntOrAbsent(fields, k);
  }

  lemma StringSpelled(re: Regex, schema: Json, shape: Shape)
    requires Spells(schema, shape) && shape.kind.String? && WellFormed(re, shape)
    ensures Accepted(re, schema) && Read(schema) == shape
  {
    KeysApart();
    KindsApart();
    NodeSpelled(re, schema.fields, STRING, {TYPE, NULLABLE, PATTERN, MAX_BYTES});
  }

  lemma IntegerSpelled(re: Regex, schema: Json, shape: Shape)
    requires Spells(schema, shape) && shape.kind.Integer?
    ensures Accepted(re, schema) && Read(schema) == shape
  {
    KeysApart();
    KindsApart();
    NodeSpelled(re, schema.fields, INTEGER, {TYPE, NULLABLE, MIN, MAX});
  }

  lemma BooleanSpelled(re: Regex, schema: Json, shape: Shape)
    requires Spells(schema, shape) && shape.kind.Boolean?
    ensures Accepted(re, schema) && Read(schema) == shape
  {
    KeysApart();
    KindsApart();
    NodeSpelled(re, schema.fields, BOOLEAN, {TYPE, NULLABLE});
  }

  lemma ArrayNodeSpelled(re: Regex, schema: Json, shape: Shape)
    requires Spells(schema, shape) && shape.kind.Array?
    ensures IsKind(schema, ARRAY) && NodeDeclared(re, schema.fields, ARRAY).Fine?
  {
    KeysApart();
    KindsApart();
    NodeSpelled(re, schema.fields, ARRAY, {TYPE, NULLABLE, ITEMS, MAX_ITEMS});
  }

  lemma ArrayAccepted(re: Regex, schema: Json)
    requires IsKind(schema, ARRAY) && NodeDeclared(re, schema.fields, ARRAY).Fine?
    requires Has(schema.fields, ITEMS) && Accepted(re, Get(schema.fields, ITEMS))
    ensures Accepted(re, schema)
  {
    KindsApart();
  }

  lemma ArrayReads(schema: Json, shape: Shape)
    requires IsKind(schema, ARRAY) && SaysNullable(schema.fields, shape.nullable) && shape.kind.Array?
    requires Has(schema.fields, ITEMS) && Read(Get(schema.fields, ITEMS)) == shape.kind.items
    requires IntAt(schema.fields, MAX_ITEMS) == shape.kind.maxItems
    ensures Read(schema) == shape
  {
    KindsApart();
  }

  lemma ArraySpelled(re: Regex, schema: Json, shape: Shape)
    requires Spells(schema, shape) && shape.kind.Array?
    requires Accepted(re, Get(schema.fields, ITEMS)) && Read(Get(schema.fields, ITEMS)) == shape.kind.items
    ensures Accepted(re, schema) && Read(schema) == shape
  {
    ArrayNodeSpelled(re, schema, shape);
    ArrayAccepted(re, schema);
    ArrayReads(schema, shape);
  }

  /** A key walk with a problem has a key with one. */
  lemma {:induction false} BadKey(re: Regex, keys: Json, i: nat) returns (k: nat)
    requires keys.Obj? && i <= |keys.fields| && !KeysDeclared(re, keys, i).Fine?
    ensures i <= k < |keys.fields| && !Accepted(re, keys.fields[k].value)
    decreases |keys.fields| - i
  {
    if Accepted(re, keys.fields[i].value) {
      k := BadKey(re, keys, i + 1);
    } else {
      k := i;
    }
  }

  lemma {:induction false} KeysSpelled(re: Regex, keys: Json, shapes: seq<Key>)
    requires SpellsKeys(keys, shapes)
    requires forall k :: 0 <= k < |shapes| ==>
               Accepted(re, keys.fields[k].value) && Read(keys.fields[k].value) == shapes[k].shape
    ensures KeysDeclared(re, keys, 0).Fine? && ReadKeys(keys.fields) == shapes
  {
    if !KeysDeclared(re, keys, 0).Fine? { var k := BadKey(re, keys, 0); }
    forall k | 0 <= k < |shapes| ensures ReadKeys(keys.fields)[k] == shapes[k] { ReadKeysAt(keys.fields, k); }
  }

  lemma {:induction false} NamesRoundTrip(names: seq<Text>, keys: seq<Field>)
    requires forall n :: n in names ==> Has(keys, n)
    ensures Names(NamesJson(names)) == names
    ensures RequiredDeclared(NamesJson(names), keys).Fine?
  {
    if names != [] { NamesRoundTrip(names[1..], keys); }
  }

  lemma EntriesSpelled(re: Regex, entries: Json, rule: Entries)
    requires SpellsEntries(entries, rule) && PatternOk(re, rule.keyPattern)
    requires Accepted(re, Get(entries.fields, VALUE)) && Read(Get(entries.fields, VALUE)) == rule.value
    ensures EntriesDeclared(re, entries).Fine? && TextAt(entries.fields, KEY_PATTERN) == rule.keyPattern
  {
  }

  /** The required names of a document are declared among its keys. */
  lemma RequiredIsDeclared(re: Regex, schema: Json, shape: Shape)
    requires Spells(schema, shape) && shape.kind.Object? && WellFormed(re, shape)
    ensures forall n :: n in shape.kind.required ==> Has(KeysOf(schema), n)
  {
    forall n | n in shape.kind.required ensures Has(KeysOf(schema), n) {
      var i :| 0 <= i < |shape.kind.keys| && shape.kind.keys[i].name == n;
      assert KeysOf(schema)[i].key == n;
    }
  }

  lemma ObjectDeclaredFrom(re: Regex, schema: Json)
    requires schema.Obj?
    requires Has(schema.fields, KEYS) ==>
               Get(schema.fields, KEYS).Obj? && KeysDeclared(re, Get(schema.fields, KEYS), 0).Fine?
    requires Has(schema.fields, REQUIRED) ==>
               Get(schema.fields, REQUIRED).Arr?
               && RequiredDeclared(Get(schema.fields, REQUIRED).items, KeysOf(schema)).Fine?
    requires Has(schema.fields, ENTRIES) && !Get(schema.fields, ENTRIES).Null? ==>
               EntriesDeclared(re, Get(schema.fields, ENTRIES)).Fine?
    ensures ObjectDeclared(re, schema).Fine?
  {
  }

  lemma ObjectAccepted(re: Regex, schema: Json)
    requires IsKind(schema, OBJECT) && NodeDeclared(re, schema.fields, OBJECT).Fine? && ObjectDeclared(re, schema).Fine?
    ensures Accepted(re, schema)
  {
  }

  lemma ObjectNodeSpelled(re: Regex, schema: Json, shape: Shape)
    requires Spells(schema, shape) && shape.kind.Object?
    ensures IsKind(schema, OBJECT) && NodeDeclared(re, schema.fields, OBJECT).Fine?
  {
    KeysApart();
    KindsApart();
    NodeSpelled(re, schema.fields, OBJECT, {TYPE, NULLABLE, KEYS, REQUIRED, ENTRIES});
  }

  /** An object's declaration that reads its parts back reads back whole. */
  lemma ObjectReads(schema: Json, shape: Shape)
    requires IsKind(schema, OBJECT) && SaysNullable(schema.fields, shape.nullable) && shape.kind.Object?
    requires ReadKeys(KeysOf(schema)) == shape.kind.keys && ReadEntries(schema) == shape.kind.entries
    requires if Has(schema.fields, REQUIRED) then
               Get(schema.fields, REQUIRED).Arr? && Names(Get(schema.fields, REQUIRED).items) == shape.kind.required
             else shape.kind.required == []
    ensures Read(schema) == shape
  {
    KindsApart();
  }

  lemma ObjectKeysRead(re: Regex, schema: Json, shape: Shape)
    requires Spells(schema, shape) && shape.kind.Object?
    requires forall k :: 0 <= k < |KeysOf(schema)| && k < |shape.kind.keys| ==>
               Accepted(re, KeysOf(schema)[k].value) && Read(KeysOf(schema)[k].value) == shape.kind.keys[k].shape
    ensures ReadKeys(KeysOf(schema)) == shape.kind.keys
    ensures Has(schema.fields, KEYS) ==>
              Get(schema.fields, KEYS).Obj? && KeysDeclared(re, Get(schema.fields, KEYS), 0).Fine?
  {
    if Has(schema.fields, KEYS) {
      assert KeysOf(schema) == Get(schema.fields, KEYS).fields;
      KeysSpelled(re, Get(schema.fields, KEYS), shape.kind.keys);
    }
  }

  /** The value shape of an object's entries rule, if it has one. */
  function EntryValue(schema: Json): Option<Json>
    requires schema.Obj?
  {
    if Has(schema.fields, ENTRIES) && Get(schema.fields, ENTRIES).Obj?
       && Has(Get(schema.fields, ENTRIES).fields, VALUE)
    then Some(Get(Get(schema.fields, ENTRIES).fields, VALUE))
    else None
  }

  lemma ObjectEntriesRead(re: Regex, schema: Json, shape: Shape)
    requires Spells(schema, shape) && shape.kind.Object?
    requires shape.kind.entries.Some? ==>
               && PatternOk(re, shape.kind.entries.value.keyPattern)
               && var value := EntryValue(schema);
                  value.Some? && Accepted(re, value.value) && Read(value.value) == shape.kind.entries.value.value
    ensures ReadEntries(schema) == shape.kind.entries
    ensures Has(schema.fields, ENTRIES) && !Get(schema.fields, ENTRIES).Null? ==>
              EntriesDeclared(re, Get(schema.fields, ENTRIES)).Fine?
  {
    if shape.kind.entries.Some? { EntriesSpelled(re, Get(schema.fields, ENTRIES), shape.kind.entries.value); }
  }

  /** The parts of an object, put together. */
  lemma ObjectSpelled(re: Regex, schema: Json, shape: Shape)
    requires Spells(schema, shape) && shape.kind.Object? && WellFormed(re, shape)
    requires forall k :: 0 <= k < |KeysOf(schema)| && k < |shape.kind.keys| ==>
               Accepted(re, KeysOf(schema)[k].value) && Read(KeysOf(schema)[k].value) == shape.kind.keys[k].shape
    requires shape.kind.entries.Some? ==>
               var value := EntryValue(schema);
               value.Some? && Accepted(re, value.value) && Read(value.value) == shape.kind.entries.value.value
    ensures Accepted(re, schema) && Read(schema) == shape
  {
    ObjectNodeSpelled(re, schema, shape);
    ObjectKeysRead(re, schema, shape);
    ObjectEntriesRead(re, schema, shape);
    RequiredIsDeclared(re, schema, shape);
    NamesRoundTrip(shape.kind.required, KeysOf(schema));
    ObjectDeclaredFrom(re, schema);
    ObjectAccepted(re, schema);
    ObjectReads(schema, shape);
  }

  /** Any document that spells out a good shape is accepted, and read as that shape. */
  lemma {:induction false} SpelledIsAccepted(re: Regex, schema: Json, shape: Shape)
    requires Spells(schema, shape) && WellFormed(re, shape)
    ensures Accepted(re, schema) && Read(schema) == shape
    decreases shape
  {
    var fields := schema.fields;
    match shape.kind
    case Object(keys, required, entries) =>
      forall k | 0 <= k < |KeysOf(schema)| && k < |keys|
        ensures Accepted(re, KeysOf(schema)[k].value) && Read(KeysOf(schema)[k].value) == keys[k].shape
      {
        SpelledIsAccepted(re, KeysOf(schema)[k].value, keys[k].shape);
      }
      if entries.Some? { SpelledIsAccepted(re, Get(Get(fields, ENTRIES).fields, VALUE), entries.value.value); }
      ObjectSpelled(re, schema, shape);
    case Array(items, maxItems) =>
      SpelledIsAccepted(re, Get(fields, ITEMS), items);
      ArraySpelled(re, schema, shape);
    case String(pattern, maxBytes) => StringSpelled(re, schema, shape);
    case Integer(min, max) => IntegerSpelled(re, schema, shape);
    case Boolean => BooleanSpelled(re, schema, shape);
  }

  /** The declaration walk accepts exactly the documents that spell out a good shape: the
      known keys of its type and no other, each with a value of its kind, every pattern
      one that compiles and every required name one that is declared. */
  lemma AcceptedIff(re: Regex, schema: Json)
    ensures Accepted(re, schema) <==> exists shape :: WellFormed(re, shape) && Spells(schema, shape)
    ensures forall shape :: WellFormed(re, shape) && Spells(schema, shape) ==> Read(schema) == shape
  {
    if Accepted(re, schema) {
      AcceptedSpells(re, schema);
      assert WellFormed(re, Read(schema)) && Spells(schema, Read(schema));
    }
    forall shape | WellFormed(re, shape) && Spells(schema, shape)
      ensures Accepted(re, schema) && Read(schema) == shape { SpelledIsAccepted(re, schema, shape); }
  }

  predicate Unhashable(j: Json) { j.Arr? || j.Obj? }

  predicate AllDeclared(names: seq<Json>, keys: seq<Field>) {
    forall j :: 0 <= j < |names| ==> names[j].Str? && Has(keys, names[j].text)
  }

  /** The required names raise exactly at a list or an object after declared names only. */
  lemma {:induction false} RequiredRaisesIff(required: seq<Json>, keys: seq<Field>)
    ensures RequiredDeclared(required, keys).Raises? <==>
            exists k :: 0 <= k < |required| && Unhashable(required[k]) && AllDeclared(required[..k], keys)
  {
    if required != [] && AllDeclared(required[..1], keys) {
      var rest := required[1..];
      RequiredRaisesIff(rest, keys);
      forall k | 0 <= k < |rest|
        ensures AllDeclared(required[..k + 1], keys) <==> AllDeclared(rest[..k], keys)
      {
        assert required[..k + 1] == required[..1] + rest[..k];
        assert forall j :: 0 <= j < k ==> required[..k + 1][j + 1] == rest[..k][j];
      }
      if k :| 0 <= k < |rest| && Unhashable(rest[k]) && AllDeclared(rest[..k], keys) {
        assert required[k + 1] == rest[k];
      }
    }
  }

  /** So does a list or an object as a node's type. */
  lemma TypeRaises(re: Regex, schema: Json)
    requires schema.Obj? && Has(schema.fields, TYPE) && Unhashable(Get(schema.fields, TYPE))
    ensures Declared(re, schema).Raises?
  {
  }

  // ---- Every shape can be declared --------------------------------------------

  function Head(kind: Text, nullable: bool): seq<Field> { [Field(TYPE, Str(kind)), Field(NULLABLE, Bool(nullable))] }

  lemma HeadFacts(kind: Text, nullable: bool)
    ensures var head := Head(kind, nullable);
            && (forall k :: Has(head, k) <==> k in {TYPE, NULLABLE})
            && Get(head, TYPE) == Str(kind) && Get(head, NULLABLE) == Bool(nullable)
  {
    KeysApart();
    var head := Head(kind, nullable);
    assert head[0].key == TYPE && head[1].key == NULLABLE;
  }

  /** A leaf's declaration with its two optional keys. */
  function LeafFields(kind: Text, nullable: bool, k1: Text, v1: Option<Json>, k2: Text, v2: Option<Json>): seq<Field> {
    Head(kind, nullable) + Opt(k1, v1) + Opt(k2, v2)
  }

  lemma LeafFieldsFound(kind: Text, nullable: bool, k1: Text, v1: Option<Json>, k2: Text, v2: Option<Json>)
    requires k1 != k2 && k1 !in {TYPE, NULLABLE} && k2 !in {TYPE, NULLABLE}
    ensures var fields := LeafFields(kind, nullable, k1, v1, k2, v2);
            && Has(fields, TYPE) && Get(fields, TYPE) == Str(kind)
            && Has(fields, NULLABLE) && Get(fields, NULLABLE) == Bool(nullable)
            && (Has(fields, k1) <==> v1.Some?) && (v1.Some? ==> Get(fields, k1) == v1.value)
            && (Has(fields, k2) <==> v2.Some?) && (v2.Some? ==> Get(fields, k2) == v2.value)
            && (forall k :: Has(fields, k) ==> k in {TYPE, NULLABLE, k1, k2})
  {
    HeadFacts(kind, nullable);
    OptFields(Head(kind, nullable), k1, v1, k2, v2);
  }

  function ArrayFields(nullable: bool, items: Json, maxItems: Option<int>): seq<Field> {
    Head(ARRAY, nullable) + Opt(ITEMS, Some(items)) + Opt(MAX_ITEMS, IntJson(maxItems))
  }

  lemma ArrayFieldsFound(nullable: bool, items: Json, maxItems: Option<int>)
    ensures var fields := ArrayFields(nullable, items, maxItems);
            && Has(fields, TYPE) && Get(fields, TYPE) == Str(ARRAY)
            && Has(fields, NULLABLE) && Get(fields, NULLABLE) == Bool(nullable)
            && Has(fields, ITEMS) && Get(fields, ITEMS) == items
            && IntAt(fields, MAX_ITEMS) == maxItems && IntOrAbsent(fields, MAX_ITEMS)
            && OnlyKeys(fields, Allowed(ARRAY))
  {
    KeysApart();
    HeadFacts(ARRAY, nullable);
    OptFields(Head(ARRAY, nullable), ITEMS, Some(items), MAX_ITEMS, IntJson(maxItems));
    OnlyKeysIfHas(ArrayFields(nullable, items, maxItems), Allowed(ARRAY));
  }

  lemma {:induction false} RenderKeysAt(keys: seq<Key>, i: nat)
    requires i < |keys|
    ensures RenderKeys(keys)[i] == Field(keys[i].name, Render(keys[i].shape))
  {
    if i > 0 { RenderKeysAt(keys[1..], i - 1); }
  }

  function EntriesJson(entries: Option<Entries>): Json {
    if entries.Some? then Obj([Field(VALUE, Render(entries.value.value))] +
                              Opt(KEY_PATTERN, TextJson(entries.value.keyPattern)))
    else Null
  }

  lemma EntriesFields(value: Json, pattern: Option<Text>)
    ensures var fields := [Field(VALUE, value)] + Opt(KEY_PATTERN, TextJson(pattern));
            && Has(fields, VALUE) && Get(fields, VALUE) == value
            && (Has(fields, KEY_PATTERN) <==> pattern.Some?)
            && (pattern.Some? ==> Get(fields, KEY_PATTERN) == Str(pattern.value))
            && OnlyKeys(fields, {KEY_PATTERN, VALUE})
  {
    KeysApart();
    var fields := [Field(VALUE, value)] + Opt(KEY_PATTERN, TextJson(pattern));
    assert fields[0].key == VALUE && fields[0].value == value;
    assert pattern.Some? ==> |fields| == 2 && fields[1] == Field(KEY_PATTERN, Str(pattern.value));
  }

  function ObjectFields(nullable: bool, keys: seq<Key>, required: seq<Text>, entries: Option<Entries>): seq<Field> {
    [Field(TYPE, Str(OBJECT)), Field(NULLABLE, Bool(nullable)), Field(KEYS, Obj(RenderKeys(keys))),
     Field(REQUIRED, Arr(NamesJson(required))), Field(ENTRIES, EntriesJson(entries))]
  }

  lemma ObjectFieldsFound(nullable: bool, keys: seq<Key>, required: seq<Text>, entries: Option<Entries>)
    ensures var fields := ObjectFields(nullable, keys, required, entries);
            && Find(fields, TYPE) == 0 && Find(fields, NULLABLE) == 1 && Find(fields, KEYS) == 2
            && Find(fields, REQUIRED) == 3 && Find(fields, ENTRIES) == 4
            && (forall k :: k !in {TYPE, NULLABLE, KEYS, REQUIRED, ENTRIES} ==> !Has(fields, k))
            && OnlyKeys(fields, Allowed(OBJECT))
  {
    KeysApart();
    var fields := ObjectFields(nullable, keys, required, entries);
    assert fields[0].key == TYPE && fields[1].key == NULLABLE && fields[2].key == KEYS;
    assert fields[3].key == REQUIRED && fields[4].key == ENTRIES;
  }

  lemma {:induction false} StringRendered(nullable: bool, pattern: Option<Text>, maxBytes: Option<int>)
    ensures Spells(Render(Shape(nullable, String(pattern, maxBytes))), Shape(nullable, String(pattern, maxBytes)))
  {
    KeysApart();
    var fields := LeafFields(STRING, nullable, PATTERN, TextJson(pattern), MAX_BYTES, IntJson(maxBytes));
    LeafFieldsFound(STRING, nullable, PATTERN, TextJson(pattern), MAX_BYTES, IntJson(maxBytes));
    assert Render(Shape(nullable, String(pattern, maxBytes))) == Obj(fields);
    OnlyKeysIfHas(fields, {TYPE, NULLABLE, PATTERN, MAX_BYTES});
  }

  lemma {:induction false} IntegerRendered(nullable: bool, min: Option<int>, max: Option<int>)
    ensures Spells(Render(Shape(nullable, Integer(min, max))), Shape(nullable, Integer(min, max)))
  {
    KeysApart();
    var fields := LeafFields(INTEGER, nullable, MIN, IntJson(min), MAX, IntJson(max));
    LeafFieldsFound(INTEGER, nullable, MIN, IntJson(min), MAX, IntJson(max));
    assert Render(Shape(nullable, Integer(min, max))) == Obj(fields);
    OnlyKeysIfHas(fields, {TYPE, NULLABLE, MIN, MAX});
  }

  lemma BooleanRendered(nullable: bool)
    ensures Spells(Render(Shape(nullable, Boolean)), Shape(nullable, Boolean))
  {
    HeadFacts(BOOLEAN, nullable);
    assert Render(Shape(nullable, Boolean)) == Obj(Head(BOOLEAN, nullable));
  }

  lemma {:induction false} ArrayRendered(nullable: bool, items: Shape, maxItems: Option<int>)
    requires Spells(Render(items), items)
    ensures Spells(Render(Shape(nullable, Array(items, maxItems))), Shape(nullable, Array(items, maxItems)))
  {
    ArrayFieldsFound(nullable, Render(items), maxItems);
    assert Render(Shape(nullable, Array(items, maxItems))) == Obj(ArrayFields(nullable, Render(items), maxItems));
  }

  lemma {:induction false} KeysRendered(keys: seq<Key>)
    requires forall k :: 0 <= k < |keys| ==> Spells(Render(keys[k].shape), keys[k].shape)
    ensures SpellsKeys(Obj(RenderKeys(keys)), keys)
  {
    forall k | 0 <= k < |keys| ensures RenderKeys(keys)[k] == Field(keys[k].name, Render(keys[k].shape)) {
      RenderKeysAt(keys, k);
    }
  }

  lemma {:induction false} EntriesRendered(entries: Entries)
    requires Spells(Render(entries.value), entries.value)
    ensures SpellsEntries(EntriesJson(Some(entries)), entries)
  {
    EntriesFields(Render(entries.value), entries.keyPattern);
  }

  lemma {:induction false} ObjectRendered(nullable: bool, keys: seq<Key>, required: seq<Text>, entries: Option<Entries>)
    requires forall k :: 0 <= k < |keys| ==> Spells(Render(keys[k].shape), keys[k].shape)
    requires entries.Some? ==> Spells(Render(entries.value.value), entries.value.value)
    ensures var shape := Shape(nullable, Object(keys, required, entries)); Spells(Render(shape), shape)
  {
    KeysRendered(keys);
    if entries.Some? { EntriesRendered(entries.value); }
    ObjectFieldsSpell(nullable, keys, required, entries);
    assert Render(Shape(nullable, Object(keys, required, entries)))
             == Obj(ObjectFields(nullable, keys, required, entries));
  }

  lemma {:induction false} ObjectFieldsSpell(nullable: bool, keys: seq<Key>, required: seq<Text>,
      entries: Option<Entries>)
    requires SpellsKeys(Obj(RenderKeys(keys)), keys)
    requires entries.Some? ==> SpellsEntries(EntriesJson(entries), entries.value)
    ensures Spells(Obj(ObjectFields(nullable, keys, required, entries)),
                   Shape(nullable, Object(keys, required, entries)))
  {
    ObjectFieldsFound(nullable, keys, required, entries);
  }

  /** A shape's rendering spells it out. */
  lemma {:induction false} RenderSpells(shape: Shape)
    ensures Spells(Render(shape), shape)
    decreases shape
  {
    match shape.kind
    case Object(keys, required, entries) =>
      forall k | 0 <= k < |keys| ensures Spells(Render(keys[k].shape), keys[k].shape) { RenderSpells(keys[k].shape); }
      if entries.Some? { RenderSpells(entries.value.value); }
      ObjectRendered(shape.nullable, keys, required, entries);
    case Array(items, maxItems) =>
      RenderSpells(items);
      ArrayRendered(shape.nullable, items, maxItems);
    case String(pattern, maxBytes) => StringRendered(shape.nullable, pattern, maxBytes);
    case Integer(min, max) => IntegerRendered(shape.nullable, min, max);
    case Boolean => BooleanRendered(shape.nullable);
  }

  /** Every shape with good patterns and declared required names can be written down: the
      declaration walk accepts its rendering, which reads back as that very shape. */
  lemma RoundTrip(re: Regex, shape: Shape)
    requires WellFormed(re, shape)
    ensures Accepted(re, Render(shape)) && Read(Render(shape)) == shape
  {
    RenderSpells(shape);
    SpelledIsAccepted(re, Render(shape), shape);
  }

  // ---- When the walk raises ---------------------------------------------------

  lemma {:induction false} ItemsRaise(re: Regex, value: Json, shape: Json, i: nat, k: nat)
    requires value.Arr? && i <= k < |value.items| && Violation(re, value.items[k], shape).Raises?
    ensures ItemsViolation(re, value, shape, i).Raises?
    decreases |value.items| - i
  {
    if i < k { ItemsRaise(re, value, shape, i + 1, k); }
  }

  lemma {:induction false} EntriesRaise(re: Regex, value: Json, schema: Json, i: nat, k: nat)
    requires value.Obj? && schema.Obj? && i <= k < |value.fields| && EntryViolation(re, value.fields[k], schema).Raises?
    ensures EntriesViolation(re, value, schema, i).Raises?
    decreases |value.fields| - i
  {
    if i < k { EntriesRaise(re, value, schema, i + 1, k); }
  }

  lemma StringRaises(re: Regex, t: Text)
    requires HasLone(Str(t))
    ensures Violation(re, Str(t), Render(Shape(false, String(None, Some(0))))).Raises?
  {
    KeysApart();
    KindsApart();
    HeadFacts(STRING, false);
    var head := Head(STRING, false);
    OptFields(head, PATTERN, None, MAX_BYTES, Some(Int(0)));
    var fields := head + Opt(PATTERN, None) + Opt(MAX_BYTES, Some(Int(0)));
    assert Render(Shape(false, String(None, Some(0)))) == Obj(fields);
    EncodableIff(t);
  }

  lemma ArrayRaises(re: Regex, value: Json, k: nat, shape: Shape)
    requires value.Arr? && k < |value.items| && Violation(re, value.items[k], Render(shape)).Raises?
    ensures Violation(re, value, Render(Shape(false, Array(shape, None)))).Raises?
  {
    KeysApart();
    KindsApart();
    HeadFacts(ARRAY, false);
    var head := Head(ARRAY, false);
    OptFields(head, ITEMS, Some(Render(shape)), MAX_ITEMS, None);
    var fields := head + Opt(ITEMS, Some(Render(shape))) + Opt(MAX_ITEMS, None);
    assert Render(Shape(false, Array(shape, None))) == Obj(fields);
    ItemsRaise(re, value, Render(shape), 0, k);
  }

  lemma ObjectRaises(re: Regex, value: Json, k: nat, shape: Shape)
    requires value.Obj? && k < |value.fields| && Violation(re, value.fields[k].value, Render(shape)).Raises?
    ensures Violation(re, value, Render(Shape(false, Object([Key(value.fields[k].key, shape)], [], None)))).Raises?
  {
    KindsApart();
    var keys := [Key(value.fields[k].key, shape)];
    var schema := Obj(ObjectFields(false, keys, [], None));
    ObjectFieldsFound(false, keys, [], None);
    assert Render(Shape(false, Object(keys, [], None))) == schema;
    assert KeysOf(schema) == RenderKeys(keys);
    RenderKeysAt(keys, 0);
    assert EntryShape(re, value.fields[k].key, schema) == Use(Render(shape));
    EntriesRaise(re, value, schema, 0, k);
  }

  /** Wherever a value holds a lone surrogate, some accepted shape measures that string. */
  lemma {:induction false} LoneSurrogateRaises(re: Regex, value: Json) returns (shape: Shape)
    requires HasLone(value)
    ensures WellFormed(re, shape) && Violation(re, value, Render(shape)).Raises?
    decreases value
  {
    match value
    case Str(t) =>
      shape := Shape(false, String(None, Some(0)));
      StringRaises(re, t);
    case Arr(items) =>
      var k :| 0 <= k < |items| && HasLone(items[k]);
      var inner := LoneSurrogateRaises(re, items[k]);
      shape := Shape(false, Array(inner, None));
      ArrayRaises(re, value, k, inner);
    case Obj(fields) =>
      var k :| 0 <= k < |fields| && LoneIn(fields[k]);
      var inner := LoneSurrogateRaises(re, fields[k].value);
      shape := Shape(false, Object([Key(fields[k].key, inner)], [], None));
      ObjectRaises(re, value, k, inner);
  }

  /** Every accepted declaration can check a value, exactly when none of its strings holds
      a lone surrogate. */
  lemma DefinedIff(re: Regex, value: Json)
    ensures (forall schema: Json :: Accepted(re, schema) ==> !Violation(re, value, schema).Raises?) <==> !HasLone(value)
  {
    if HasLone(value) {
      var shape := LoneSurrogateRaises(re, value);
      RoundTrip(re, shape);
      assert Accepted(re, Render(shape));
    } else {
      forall schema: Json | Accepted(re, schema) ensures !Violation(re, value, schema).Raises? {
        WalkMeansShape(re, value, schema);
      }
    }
  }
}
