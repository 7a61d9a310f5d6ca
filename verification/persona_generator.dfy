/** PersonaGenerator (src/agents/persona_generator.py): personas are
    requested from the model in batches of at most five until there are
    enough, three empty batches in a row abort the run, and the result is
    cached on the generator. Each batch reply is parsed defensively:
    trailing commas are repaired, keys are cleaned, the list of records is
    looked for under a "persona" key or as the first list, and records that
    do not validate are dropped. */
module PersonaGenerator {
  import opened Py
  import opened Records
  import opened Exceptions

  /** The model behind a generator: the reply to the n-th batch request of
      a given size, `json.loads` (None when it raises JSONDecodeError), and
      `Persona(**record)` (None when it raises). */
  datatype Llm = Llm(
    reply: (nat, int) -> Result<string, Error>,
    parse: string -> Option<Value>,
    validate: Value -> Option<Persona>)

  // ---------------------------------------------------------------------
  // JSON repair

  /** `content.replace(",]", "]").replace(",}", "}")` */
  function Repair(content: string): string {
    ReplaceAll(ReplaceAll(content, ",]", "]"), ",}", "}")
  }

  /** `r` is `s` with some of the commas that stand right before `close`
      deleted, and nothing else changed. */
  predicate DropsCommasBefore(s: string, r: string, close: char)
    decreases |s|
  {
    if s == [] then r == []
    else if |s| >= 2 && s[0] == ',' && s[1] == close then
      DropsCommasBefore(s[1..], r, close)
      || (r != [] && r[0] == ',' && DropsCommasBefore(s[1..], r[1..], close))
    else r != [] && r[0] == s[0] && DropsCommasBefore(s[1..], r[1..], close)
  }

  /** One pass of the repair deletes only commas that stand right before
      the closing bracket, and keeps every other character in order. */
  lemma {:induction false} ReplaceDropsCommas(s: string, close: char)
    requires close != ','
    ensures DropsCommasBefore(s, ReplaceAll(s, [',', close], [close]), close)
    decreases |s|
  {
    var pat := [',', close];
    if StartsWith(s, pat) {
      var rest := ReplaceAll(s[2..], pat, [close]);
      ReplaceDropsCommas(s[2..], close);
      assert s[1..][1..] == s[2..];
      assert ([close] + rest)[1..] == rest;
    } else if s != [] {
      ReplaceDropsCommas(s[1..], close);
      var r := ReplaceAll(s, pat, [close]);
      assert r[1..] == ReplaceAll(s[1..], pat, [close]);
    }
  }

  /** The two passes of Repair: the first deletes commas before `]`, the
      second commas before `}`. */
  lemma RepairDropsCommas(content: string)
    ensures var mid := ReplaceAll(content, ",]", "]");
      && DropsCommasBefore(content, mid, ']')
      && DropsCommasBefore(mid, Repair(content), '}')
  {
    ReplaceDropsCommas(content, ']');
    ReplaceDropsCommas(ReplaceAll(content, ",]", "]"), '}');
  }

  /** Text without a comma right before a closing bracket is left alone. */
  lemma {:induction false} ReplaceNoMatch(s: string, pat: string, rep: string)
    requires pat != []
    requires !Contains(s, pat)
    ensures ReplaceAll(s, pat, rep) == s
    decreases |s|
  {
    if s != [] {
      ReplaceNoMatch(s[1..], pat, rep);
    }
  }

  lemma RepairIdentity(content: string)
    requires !Contains(content, ",]") && !Contains(content, ",}")
    ensures Repair(content) == content
  {
    ReplaceNoMatch(content, ",]", "]");
    ReplaceNoMatch(content, ",}", "}");
  }

  /** `json.loads(content)`, retried once on the repaired text; None when
      both fail. */
  function ParseWithRepair(parse: string -> Option<Value>, content: string): (r: Option<Value>)
    ensures parse(content).Some? ==> r == parse(content)
    ensures parse(content).None? ==> r == parse(Repair(content))
  {
    if parse(content).Some? then parse(content) else parse(Repair(content))
  }

  // ---------------------------------------------------------------------
  // Key cleaning

  const Quote: set<char> := {'"'}
  const Apostrophe: set<char> := {'\''}

  /** `key.strip().strip('\n').strip('\r').strip('"').strip("'").strip()` */
  function CleanKey(key: string): string {
    Strip(Strip(Strip(Strip(Strip(Strip(key, Whitespace), {'\n'}), {'\r'}), Quote), Apostrophe), Whitespace)
  }

  predicate UniqueKeys(entries: seq<(string, Value)>) {
    forall i, j | 0 <= i < j < |entries| :: entries[i].0 != entries[j].0
  }

  /** The position of `key` among the keys, or -1. */
  function IndexOf(entries: seq<(string, Value)>, key: string): (i: int)
    ensures -1 <= i < |entries|
    ensures 0 <= i ==> entries[i].0 == key
    ensures i < 0 <==> !HasKey(entries, key)
  {
    if entries == [] then -1
    else if entries[0].0 == key then 0
    else
      var i := IndexOf(entries[1..], key);
      if i < 0 then
        assert forall j | 1 <= j < |entries| :: entries[j] == entries[1..][j - 1];
        -1
      else i + 1
  }

  /** `d[key] = value` on a dict: existing keys keep their places (an
      existing `key` takes the new value in place), a new key goes last. */
  function Put(entries: seq<(string, Value)>, key: string, value: Value): (r: seq<(string, Value)>)
    ensures UniqueKeys(entries) ==> UniqueKeys(r)
    ensures HasKey(r, key) && (key, value) in r
    ensures forall e | e in r :: e == (key, value) || e in entries
    ensures |r| >= |entries| && forall j | 0 <= j < |entries| :: r[j].0 == entries[j].0
    ensures forall k | HasKey(entries, k) :: HasKey(r, k)
    ensures forall j | 0 <= j < |entries| && entries[j].0 != key :: r[j] == entries[j]
    ensures HasKey(entries, key) ==> |r| == |entries|
    ensures !HasKey(entries, key) ==> r == entries + [(key, value)]
  {
    var i := IndexOf(entries, key);
    if i < 0 then
      var r := entries + [(key, value)];
      assert r[|entries|] == (key, value);
      assert forall k | HasKey(entries, k) :: HasKey(r, k) by {
        forall k | HasKey(entries, k)
          ensures HasKey(r, k)
        {
          var j :| 0 <= j < |entries| && entries[j].0 == k;
          assert r[j] == entries[j];
        }
      }
      r
    else
      var r := entries[i := (key, value)];
      assert forall j | 0 <= j < |r| :: r[j].0 == entries[j].0;
      assert forall k | HasKey(entries, k) :: HasKey(r, k) by {
        forall k | HasKey(entries, k)
          ensures HasKey(r, k)
        {
          var j :| 0 <= j < |entries| && entries[j].0 == k;
          assert r[j].0 == k;
        }
      }
      r
  }

  /** The first position whose key `f` maps to `key`, or |entries| when
      there is none. */
  function FirstIndexOf(entries: seq<(string, Value)>, f: string -> string, key: string): (i: nat)
    ensures i <= |entries|
    ensures i < |entries| ==> f(entries[i].0) == key
    ensures forall j | 0 <= j < i :: f(entries[j].0) != key
  {
    if entries == [] then 0
    else
      var i := FirstIndexOf(entries[..|entries| - 1], f, key);
      assert forall j | 0 <= j < |entries| - 1 :: entries[..|entries| - 1][j] == entries[j];
      if i < |entries| - 1 then i
      else if f(entries[|entries| - 1].0) == key then |entries| - 1
      else |entries|
  }

  /** The last position whose key `f` maps to `key`, or -1 when there is
      none. */
  function LastIndexOf(entries: seq<(string, Value)>, f: string -> string, key: string): (i: int)
    ensures -1 <= i < |entries|
    ensures 0 <= i ==> f(entries[i].0) == key
    ensures forall j | i < j < |entries| :: f(entries[j].0) != key
  {
    if entries == [] then -1
    else if f(entries[|entries| - 1].0) == key then |entries| - 1
    else
      var i := LastIndexOf(entries[..|entries| - 1], f, key);
      assert forall j | 0 <= j < |entries| - 1 :: entries[..|entries| - 1][j] == entries[j];
      i
  }

  /** A mapping rebuilt with every key passed through `f`, as a loop of
      `d[f(key)] = value` builds it: no key appears twice, every new key is
      present, each holds the value of the LAST input entry whose key maps
      to it, and the new keys stand in the order of their FIRST occurrence. */
  function Rekey(entries: seq<(string, Value)>, f: string -> string): (r: seq<(string, Value)>)
    ensures UniqueKeys(r)
    ensures forall i | 0 <= i < |entries| :: HasKey(r, f(entries[i].0))
    ensures forall k | 0 <= k < |r| ::
      0 <= LastIndexOf(entries, f, r[k].0) && r[k].1 == entries[LastIndexOf(entries, f, r[k].0)].1
    ensures forall p, q | 0 <= p < q < |r| :: FirstIndexOf(entries, f, r[p].0) < FirstIndexOf(entries, f, r[q].0)
  {
    if entries == [] then []
    else
      var init := entries[..|entries| - 1];
      var last := entries[|entries| - 1];
      var r := Put(Rekey(init, f), f(last.0), last.1);
      RekeyStepValues(entries, init, Rekey(init, f), f);
      RekeyStepOrder(entries, init, Rekey(init, f), f);
      r
  }

  /** Every entry of the rebuilt mapping is an input entry under its new
      key. */
  lemma RekeyFromInput(entries: seq<(string, Value)>, f: string -> string)
    ensures forall e | e in Rekey(entries, f) :: exists i | 0 <= i < |entries| :: e == (f(entries[i].0), entries[i].1)
  {
    var r := Rekey(entries, f);
    forall e | e in r
      ensures exists i | 0 <= i < |entries| :: e == (f(entries[i].0), entries[i].1)
    {
      var k :| 0 <= k < |r| && r[k] == e;
      var i := LastIndexOf(entries, f, e.0);
      assert e == (f(entries[i].0), entries[i].1);
    }
  }

  /** One step of `Rekey`, for the values: assigning the last entry keeps
      every key's value that of its last entry. */
  lemma {:induction false} RekeyStepValues(entries: seq<(string, Value)>, init: seq<(string, Value)>,
                                           r0: seq<(string, Value)>, f: string -> string)
    requires entries != [] && init == entries[..|entries| - 1]
    requires UniqueKeys(r0)
    requires forall k | 0 <= k < |r0| ::
      0 <= LastIndexOf(init, f, r0[k].0) && r0[k].1 == init[LastIndexOf(init, f, r0[k].0)].1
    ensures var last := entries[|entries| - 1];
      var r := Put(r0, f(last.0), last.1);
      forall k | 0 <= k < |r| ::
        0 <= LastIndexOf(entries, f, r[k].0) && r[k].1 == entries[LastIndexOf(entries, f, r[k].0)].1
  {
    var last := entries[|entries| - 1];
    var key := f(last.0);
    var r := Put(r0, key, last.1);
    if !HasKey(r0, key) {
      assert r == r0 + [(key, last.1)];
    }
    forall k | 0 <= k < |r|
      ensures 0 <= LastIndexOf(entries, f, r[k].0) && r[k].1 == entries[LastIndexOf(entries, f, r[k].0)].1
    {
      if r[k].0 == key {
        assert (key, last.1) in r;
        var m :| 0 <= m < |r| && r[m] == (key, last.1);
        assert m == k;
      } else {
        assert k < |r0|;
        assert r[k] == r0[k];
        assert entries[LastIndexOf(init, f, r0[k].0)] == init[LastIndexOf(init, f, r0[k].0)];
      }
    }
  }

  /** One step of `Rekey`, for the keys: every key stays present and a new
      key goes after every key that occurred before it. */
  lemma {:induction false} RekeyStepOrder(entries: seq<(string, Value)>, init: seq<(string, Value)>,
                                          r0: seq<(string, Value)>, f: string -> string)
    requires entries != [] && init == entries[..|entries| - 1]
    requires forall i | 0 <= i < |init| :: HasKey(r0, f(init[i].0))
    requires forall k | 0 <= k < |r0| :: 0 <= LastIndexOf(init, f, r0[k].0)
    requires forall p, q | 0 <= p < q < |r0| :: FirstIndexOf(init, f, r0[p].0) < FirstIndexOf(init, f, r0[q].0)
    ensures var last := entries[|entries| - 1];
      var r := Put(r0, f(last.0), last.1);
      && (forall i | 0 <= i < |entries| :: HasKey(r, f(entries[i].0)))
      && (forall p, q | 0 <= p < q < |r| :: FirstIndexOf(entries, f, r[p].0) < FirstIndexOf(entries, f, r[q].0))
  {
    var last := entries[|entries| - 1];
    var key := f(last.0);
    var r := Put(r0, key, last.1);
    assert forall i | 0 <= i < |init| :: init[i] == entries[i];
    forall i | 0 <= i < |entries|
      ensures HasKey(r, f(entries[i].0))
    {
      if i < |init| {
        assert HasKey(r0, f(init[i].0));
      }
    }
    if !HasKey(r0, key) {
      assert r == r0 + [(key, last.1)];
      assert FirstIndexOf(init, f, key) == |init|;
    }
    forall p, q | 0 <= p < q < |r|
      ensures FirstIndexOf(entries, f, r[p].0) < FirstIndexOf(entries, f, r[q].0)
    {
      FirstIndexKept(entries, f, r0[p].0);
      if q < |r0| {
        FirstIndexKept(entries, f, r0[q].0);
        assert r[p].0 == r0[p].0 && r[q].0 == r0[q].0;
      } else {
        assert r[p].0 == r0[p].0 && r[q].0 == key;
      }
    }
  }

  /** A key that occurs before the last entry keeps its first position
      when the last entry is added; a key that does not occurs first at the
      end or not at all. */
  lemma FirstIndexKept(entries: seq<(string, Value)>, f: string -> string, key: string)
    requires entries != []
    ensures var init := entries[..|entries| - 1];
      && (0 <= LastIndexOf(init, f, key) ==> FirstIndexOf(entries, f, key) == FirstIndexOf(init, f, key) < |init|)
      && (FirstIndexOf(init, f, key) == |init| ==> FirstIndexOf(entries, f, key) >= |init|)
  {
  }

  /** The loop at persona_generator.py:161-166 that builds `clean_data`,
      for any key-cleaning function `f`. */
  method RekeyEntries(entries: seq<(string, Value)>, f: string -> string) returns (clean: seq<(string, Value)>)
    ensures clean == Rekey(entries, f)
  {
    clean := [];
    var i := 0;
    while i < |entries|
      invariant 0 <= i <= |entries|
      invariant clean == Rekey(entries[..i], f)
    {
      assert entries[..i + 1][..i] == entries[..i];
      clean := Put(clean, f(entries[i].0), entries[i].1);
      i := i + 1;
    }
    assert entries[..i] == entries;
  }

  // ---------------------------------------------------------------------
  // Choosing the records

  /** `'persona' in key.strip().strip('"').strip("'").lower()` */
  predicate MentionsPersona(key: string) {
    Contains(LowerStr(Strip(Strip(Strip(key, Whitespace), Quote), Apostrophe)), "persona")
  }

  /** The value under the first key that satisfies `p`: a loop over the
      keys that breaks at the first match. */
  function FirstWhere(entries: seq<(string, Value)>, p: string -> bool): (r: Option<Value>)
    ensures r.Some? ==> exists i | 0 <= i < |entries| ::
      && p(entries[i].0) && entries[i].1 == r.value
      && forall j | 0 <= j < i :: !p(entries[j].0)
    ensures r.None? ==> forall i | 0 <= i < |entries| :: !p(entries[i].0)
  {
    if entries == [] then None
    else if p(entries[0].0) then Some(entries[0].1)
    else
      var r := FirstWhere(entries[1..], p);
      assert forall i | 1 <= i < |entries| :: entries[i] == entries[1..][i - 1];
      if r.Some? then
        var i :| 0 <= i < |entries[1..]| && p(entries[1..][i].0) && entries[1..][i].1 == r.value
          && forall j | 0 <= j < i :: !p(entries[1..][j].0);
        assert forall j | 0 <= j < i + 1 :: !p(entries[j].0) by {
          forall j | 0 <= j < i + 1
            ensures !p(entries[j].0)
          {
            if j > 0 {
              assert entries[j] == entries[1..][j - 1];
            }
          }
        }
        r
      else
        r
  }

  /** `next((v for v in data.values() if isinstance(v, list)), [])` */
  function FirstList(entries: seq<(string, Value)>): (r: seq<Value>)
    ensures (exists i | 0 <= i < |entries| :: entries[i].1.List? && entries[i].1.items == r
               && forall j | 0 <= j < i :: !entries[j].1.List?)
      || (r == [] && forall i | 0 <= i < |entries| :: !entries[i].1.List?)
  {
    if entries == [] then []
    else if entries[0].1.List? then entries[0].1.items
    else
      var r := FirstList(entries[1..]);
      assert forall i | 1 <= i < |entries| :: entries[i] == entries[1..][i - 1];
      r
  }

  /** The records a chosen value offers. Iterating over a value that is
      not a list either raises (a number, None) or yields strings that
      `Persona(**...)` rejects, so such a choice yields no persona. */
  function Elements(v: Value): seq<Value> {
    if v.List? then v.items else []
  }

  /** `personas_data` at persona_generator.py:169-188: a top-level list as
      it is; in a mapping, the value under the first "persona" key when it
      is truthy, and otherwise the first list value. */
  function SelectRecords(data: Value): seq<Value> {
    match data
    case List(items) => items
    case Dict(entries) =>
      var chosen := FirstWhere(entries, MentionsPersona);
      if chosen.Some? && Truthy(chosen.value) then Elements(chosen.value)
      else FirstList(entries)
    case _ => []
  }

  /** The records that `Persona(**record)` accepts, in order. */
  function Valid(records: seq<Value>, validate: Value -> Option<Persona>): (ps: seq<Persona>)
    ensures |ps| <= |records|
    ensures forall p | p in ps :: exists v | v in records :: validate(v) == Some(p)
  {
    if records == [] then []
    else
      var last := records[|records| - 1];
      var init := Valid(records[..|records| - 1], validate);
      assert forall v | v in records[..|records| - 1] :: v in records;
      init + (if validate(last).Some? then [validate(last).value] else [])
  }

  /** Dropping invalid records keeps the order: validating two runs of
      records is validating each in turn. */
  lemma {:induction false} ValidAppend(xs: seq<Value>, ys: seq<Value>, validate: Value -> Option<Persona>)
    ensures Valid(xs + ys, validate) == Valid(xs, validate) + Valid(ys, validate)
    decreases |ys|
  {
    if ys == [] {
      assert xs + ys == xs;
    } else {
      var ys' := ys[..|ys| - 1];
      assert (xs + ys)[..|xs + ys| - 1] == xs + ys';
      assert (xs + ys)[|xs + ys| - 1] == ys[|ys| - 1];
      ValidAppend(xs, ys', validate);
    }
  }

  /** When every record validates, every one is kept. */
  lemma {:induction false} ValidAll(records: seq<Value>, validate: Value -> Option<Persona>)
    requires forall v | v in records :: validate(v).Some?
    ensures |Valid(records, validate)| == |records|
    decreases |records|
  {
    if records != [] {
      assert forall v | v in records[..|records| - 1] :: v in records;
      ValidAll(records[..|records| - 1], validate);
    }
  }

  /** The loop that turns records into personas, skipping the ones that
      raise (persona_generator.py:191-200 and 271-278). */
  method KeepValid(records: seq<Value>, validate: Value -> Option<Persona>) returns (personas: seq<Persona>)
    ensures personas == Valid(records, validate)
  {
    personas := [];
    var k := 0;
    while k < |records|
      invariant 0 <= k <= |records|
      invariant personas == Valid(records[..k], validate)
    {
      assert records[..k + 1][..k] == records[..k];
      var p := validate(records[k]);
      if p.Some? {
        personas := personas + [p.value];
      }
      k := k + 1;
    }
    assert records[..k] == records;
  }

  /** The parsed reply with its keys cleaned when it is a mapping. */
  function Cleaned(data: Value): Value {
    if data.Dict? then Dict(Rekey(data.entries, CleanKey)) else data
  }

  /** What `_generate_batch` returns for a reply. A failed call, or a reply
      that does not parse even after repair, gives an empty batch. */
  function BatchOf(llm: Llm, reply: Result<string, Error>): seq<Persona> {
    if reply.Failure? then []
    else
      var data := ParseWithRepair(llm.parse, reply.value);
      if data.None? then [] else Valid(SelectRecords(Cleaned(data.value)), llm.validate)
  }

  /** A reply that is, or after repair becomes, a JSON list yields exactly
      the records of that list that validate; every one of them when all
      do. */
  lemma BatchOfList(llm: Llm, content: string, items: seq<Value>)
    requires ParseWithRepair(llm.parse, content) == Some(List(items))
    ensures BatchOf(llm, Success(content)) == Valid(items, llm.validate)
    ensures (forall v | v in items :: llm.validate(v).Some?) ==> |BatchOf(llm, Success(content))| == |items|
  {
    if forall v | v in items :: llm.validate(v).Some? {
      ValidAll(items, llm.validate);
    }
  }

  /** A reply with no list anywhere at its top level (neither a list nor a
      mapping holding one) yields no persona. */
  lemma BatchOfNoList(llm: Llm, content: string, data: Value)
    requires ParseWithRepair(llm.parse, content) == Some(data)
    requires !data.List?
    requires data.Dict? ==> forall i | 0 <= i < |data.entries| :: !data.entries[i].1.List?
    ensures BatchOf(llm, Success(content)) == []
  {
    if data.Dict? {
      var clean := Rekey(data.entries, CleanKey);
      forall i | 0 <= i < |clean|
        ensures !clean[i].1.List?
      {
        assert clean[i] in clean;
      }
      NoListSelectsNothing(clean);
      assert Cleaned(data) == Dict(clean);
    } else {
      assert SelectRecords(Cleaned(data)) == [];
    }
    assert Valid([], llm.validate) == [];
  }

  /** A mapping reply: once its keys are cleaned, the value under the first
      key that mentions "persona" supplies the records when it is a
      non-empty list; when no key mentions it, or its value is falsy, the
      first list value does. */
  lemma BatchOfDict(llm: Llm, content: string, entries: seq<(string, Value)>)
    requires ParseWithRepair(llm.parse, content) == Some(Dict(entries))
    ensures var clean := Rekey(entries, CleanKey);
      var chosen := FirstWhere(clean, MentionsPersona);
      && (chosen.Some? && chosen.value.List? && chosen.value.items != [] ==>
            BatchOf(llm, Success(content)) == Valid(chosen.value.items, llm.validate))
      && (chosen.None? || !Truthy(chosen.value) ==>
            BatchOf(llm, Success(content)) == Valid(FirstList(clean), llm.validate))
  {
    var clean := Rekey(entries, CleanKey);
    assert Cleaned(Dict(entries)) == Dict(clean);
    assert BatchOf(llm, Success(content)) == Valid(SelectRecords(Dict(clean)), llm.validate);
    SelectFromDict(clean);
  }

  lemma SelectFromDict(clean: seq<(string, Value)>)
    ensures var chosen := FirstWhere(clean, MentionsPersona);
      && (chosen.Some? && chosen.value.List? && chosen.value.items != [] ==>
            SelectRecords(Dict(clean)) == chosen.value.items)
      && (chosen.None? || !Truthy(chosen.value) ==> SelectRecords(Dict(clean)) == FirstList(clean))
  {
  }

  /** A mapping with no list value offers no records. */
  lemma NoListSelectsNothing(entries: seq<(string, Value)>)
    requires forall i | 0 <= i < |entries| :: !entries[i].1.List?
    ensures SelectRecords(Dict(entries)) == []
  {
    FirstWhereNoList(entries, MentionsPersona);
    assert FirstList(entries) == [];
  }

  lemma FirstWhereNoList(entries: seq<(string, Value)>, p: string -> bool)
    requires forall i | 0 <= i < |entries| :: !entries[i].1.List?
    ensures var chosen := FirstWhere(entries, p); chosen.Some? ==> !chosen.value.List?
  {
    var chosen := FirstWhere(entries, p);
    if chosen.Some? {
      var i :| 0 <= i < |entries| && p(entries[i].0) && entries[i].1 == chosen.value
        && forall j | 0 <= j < i :: !p(entries[j].0);
    }
  }

  /** `_generate_batch`: ask, parse (repairing once), clean the keys,
      choose the records, keep the valid ones. */
  method GenerateBatch(llm: Llm, reply: Result<string, Error>) returns (personas: seq<Persona>)
    ensures personas == BatchOf(llm, reply)
  {
    if reply.Failure? {
      return [];
    }
    var data := ParseWithRepair(llm.parse, reply.value);
    if data.None? {
      return [];
    }
    var value := data.value;
    if value.Dict? {
      var clean := RekeyEntries(value.entries, CleanKey);
      value := Dict(clean);
    }
    personas := KeepValid(SelectRecords(value), llm.validate);
  }

  // ---------------------------------------------------------------------
  // The batch loop

  const BatchSize: nat := 5
  const MaxFailedBatches: nat := 3

  /** `min(batch_size, count - len(personas))`, inside the loop. */
  function NextBatchSize(count: int, have: int): (n: int)
    requires have < count
    ensures 1 <= n <= BatchSize && n <= count - have
    ensures n == BatchSize || n == count - have
  {
    Min(BatchSize, count - have)
  }

  const GenerationFailureHead: string := "Failed to generate personas after 3 attempts. Successfully generated "
  const GenerationFailureTail: string := " personas before failures. This may be due to:\n  1. Model not supporting structured JSON output reliably\n  2. Rate limiting or API timeouts\n  3. Prompt complexity issues\nTry: Using a different model (e.g., 'google/gemini-2.5-flash') or reducing batch size."

  /** The PersonaGenerationError raised after three empty batches in a row. */
  function GenerationFailure(generated: nat): (e: Error)
    ensures e.kind == PersonaGenerationError
  {
    Error(PersonaGenerationError, GenerationFailureHead + NatToString(generated) + GenerationFailureTail)
  }

  /** The error is a ProductIdeationError and names how many personas were
      generated before the failures. */
  lemma GenerationFailureMessage(generated: nat)
    ensures IsA(GenerationFailure(generated).kind, ProductIdeationError)
    ensures Contains(GenerationFailure(generated).message, NatToString(generated))
  {
    ContainsMiddle(GenerationFailureHead, NatToString(generated), GenerationFailureTail);
  }

  /** The batch the `call`-th request of a given size brings back. */
  function BatchesOf(llm: Llm): (nat, int) -> seq<Persona> {
    (call: nat, size: int) => BatchOf(llm, llm.reply(call, size))
  }

  /** Personas still missing. */
  function Missing(count: int, have: int): nat {
    if have >= count then 0 else count - have
  }

  /** The loop of `generate_personas` from a given point: `personas` so far,
      `failed` empty batches in a row, `call` batch requests made. */
  function Generate(batches: (nat, int) -> seq<Persona>, count: int, personas: seq<Persona>, failed: nat, call: nat)
    : Result<seq<Persona>, Error>
    requires failed < MaxFailedBatches
    decreases Missing(count, |personas|), MaxFailedBatches - failed
  {
    if |personas| >= count then Success(personas)
    else
      var batch := batches(call, NextBatchSize(count, |personas|));
      if batch == [] then
        if failed + 1 >= MaxFailedBatches then Failure(GenerationFailure(|personas|))
        else Generate(batches, count, personas, failed + 1, call + 1)
      else Generate(batches, count, personas + batch, 0, call + 1)
  }

  /** A finished loop has at least `count` personas and starts with the ones
      it had; a failed one raised PersonaGenerationError. */
  lemma {:induction false} GenerateSpec(batches: (nat, int) -> seq<Persona>, count: int, personas: seq<Persona>, failed: nat, call: nat)
    requires failed < MaxFailedBatches
    ensures var r := Generate(batches, count, personas, failed, call);
      && (r.Success? ==> |r.value| >= count && r.value[..|personas|] == personas)
      && (r.Failure? ==> r.error.kind == PersonaGenerationError)
    decreases Missing(count, |personas|), MaxFailedBatches - failed
  {
    if |personas| < count {
      var batch := batches(call, NextBatchSize(count, |personas|));
      if batch == [] {
        if failed + 1 < MaxFailedBatches {
          GenerateSpec(batches, count, personas, failed + 1, call + 1);
        }
      } else {
        GenerateSpec(batches, count, personas + batch, 0, call + 1);
        var r := Generate(batches, count, personas + batch, 0, call + 1);
        if r.Success? {
          assert r.value[..|personas|] == (r.value[..|personas + batch|])[..|personas|];
        }
      }
    }
  }

  /** Three empty batches in a row abort the loop, naming the personas
      gathered before them. */
  lemma GenerateFailsOnThreeEmpty(batches: (nat, int) -> seq<Persona>, count: int, personas: seq<Persona>, call: nat)
    requires |personas| < count
    requires batches(call, NextBatchSize(count, |personas|)) == []
    requires batches(call + 1, NextBatchSize(count, |personas|)) == []
    requires batches(call + 2, NextBatchSize(count, |personas|)) == []
    ensures Generate(batches, count, personas, 0, call) == Failure(GenerationFailure(|personas|))
  {
    assert Generate(batches, count, personas, 1, call + 1) == Generate(batches, count, personas, 2, call + 2);
  }

  /** When every request brings at least one persona, the loop finishes. */
  lemma {:induction false} GenerateSucceedsWhenBatchesArrive(batches: (nat, int) -> seq<Persona>, count: int, personas: seq<Persona>, failed: nat, call: nat)
    requires failed < MaxFailedBatches
    requires forall c: nat, n: int :: batches(c, n) != []
    ensures Generate(batches, count, personas, failed, call).Success?
    decreases Missing(count, |personas|)
  {
    if |personas| < count {
      var batch := batches(call, NextBatchSize(count, |personas|));
      GenerateSucceedsWhenBatchesArrive(batches, count, personas + batch, 0, call + 1);
    }
  }

  // ---------------------------------------------------------------------
  // Targeted generation

  /** The records `generate_targeted_personas` reads from a parsed reply
      (persona_generator.py:261-269), or None where that code raises: `in`
      on a number or None, indexing a list or a string with "personas", or
      `.values()` on something that is not a mapping. A "personas" value
      that is a mapping or a string yields only strings, which
      `Persona(**...)` rejects one by one. */
  function TargetedRecords(data: Value): Option<seq<Value>> {
    match data
    case Dict(entries) =>
      var v := Get(entries, "personas");
      if v.None? then Some(FirstList(entries))
      else if v.value.List? then Some(v.value.items)
      else if v.value.Dict? || v.value.Str? then Some([])
      else None
    case List(items) => if Str("personas") in items then None else Some(items)
    case _ => None
  }

  /** The generator: its persona cache, which `generate_personas` fills and
      `clear_cache` empties. */
  class PersonaGenerator {
    var cache: seq<Persona>

    constructor()
      ensures cache == []
    {
      cache := [];
    }

    /** `generate_personas(count)`: the first `count` cached personas when
        the cache holds enough; otherwise the batch loop, whose result
        replaces the cache. */
    method GeneratePersonas(llm: Llm, count: int) returns (r: Result<seq<Persona>, Error>)
      modifies this
      ensures |old(cache)| >= count ==> r == Success(Prefix(old(cache), count)) && cache == old(cache)
      ensures |old(cache)| < count ==> r == Generate(BatchesOf(llm), count, [], 0, 0)
      ensures |old(cache)| < count && r.Success? ==> cache == r.value && |r.value| >= count
      ensures r.Failure? ==> cache == old(cache) && r.error.kind == PersonaGenerationError
    {
      if |cache| >= count {
        return Success(Prefix(cache, count));
      }
      var batches := BatchesOf(llm);
      GenerateSpec(batches, count, [], 0, 0);
      var personas: seq<Persona> := [];
      var failed: nat := 0;
      var call: nat := 0;
      while |personas| < count
        invariant cache == old(cache)
        invariant failed < MaxFailedBatches
        invariant Generate(batches, count, personas, failed, call) == Generate(batches, count, [], 0, 0)
        decreases Missing(count, |personas|), MaxFailedBatches - failed
      {
        var size := NextBatchSize(count, |personas|);
        var batch := GenerateBatch(llm, llm.reply(call, size));
        assert batch == batches(call, size);
        if batch == [] {
          failed := failed + 1;
          if failed >= MaxFailedBatches {
            return Failure(GenerationFailure(|personas|));
          }
        } else {
          failed := 0;
        }
        assert batch == [] ==> personas + batch == personas;
        personas := personas + batch;
        call := call + 1;
      }
      cache := personas;
      r := Success(personas);
    }

    /** `generate_targeted_personas`: the valid records of the targeted
        reply; any failure on the way falls back to `generate_personas`.
        The reply is parsed once, without repair. */
    method GenerateTargetedPersonas(llm: Llm, targetedReply: Result<string, Error>, count: int)
      returns (r: Result<seq<Persona>, Error>)
      modifies this
      ensures Targeted(llm, targetedReply).Some? ==>
        r == Success(Valid(Targeted(llm, targetedReply).value, llm.validate)) && cache == old(cache)
      ensures Targeted(llm, targetedReply).None? && |old(cache)| >= count ==>
        r == Success(Prefix(old(cache), count)) && cache == old(cache)
      ensures Targeted(llm, targetedReply).None? && |old(cache)| < count ==>
        && r == Generate(BatchesOf(llm), count, [], 0, 0)
        && (r.Success? ==> cache == r.value && |r.value| >= count)
      ensures r.Failure? ==> cache == old(cache) && r.error.kind == PersonaGenerationError
    {
      var records := Targeted(llm, targetedReply);
      if records.Some? {
        var personas := KeepValid(records.value, llm.validate);
        return Success(personas);
      }
      r := GeneratePersonas(llm, count);
    }

    /** `clear_cache` */
    method ClearCache()
      modifies this
      ensures cache == []
    {
      cache := [];
    }
  }

  /** The records of a targeted reply, or None when the call or the parse
      fails or the reply has no usable shape. */
  function Targeted(llm: Llm, reply: Result<string, Error>): Option<seq<Value>> {
    if reply.Failure? then None
    else
      var data := llm.parse(reply.value);
      if data.None? then None else TargetedRecords(data.value)
  }
}
