// Bringing a bill of materials in line with what a frozen application contains.
module Sboms {
  import opened Options

  datatype Error = NotAList | NotAnObject | NotAProperty | NoReference | NoRoot | MissingPython | MissingNpm

  datatype Result<+T> = Ok(value: T) | Fail(error: Error)

  /** A property, its fields possibly absent, or something that is no object at all. */
  datatype Property = Property(name: Option<string>, value: Option<string>) | NotProperty

  /** A component of the document: an object with its fields, each possibly absent, or
      something that is no object at all. */
  datatype Component =
    | Component(name: string, version: string, reference: Option<string>, scope: Option<string>, properties: seq<Property>)
    | NotObject

  datatype Payload = Payload(python: set<(string, string)>, npm: set<string>)

  datatype Counts = Counts(python: nat, pythonExcluded: nat, npm: nat, npmExcluded: nat, others: nat)

  const ECOSYSTEM := "lm-atelier:ecosystem"
  const STATUS := "lm-atelier:payload-status"
  const REQUIRED := "required"
  const EXCLUDED := "excluded"
  const OWN_PACKAGE := "lm-atelier-api"

  // ------------------------------------------------------------ properties

  function Called(p: Property): Option<string> {
    if p.Property? then p.name else None
  }

  /** All of them are objects. */
  predicate Proper(properties: seq<Property>) {
    forall i | 0 <= i < |properties| :: properties[i].Property?
  }

  /** Those are that are looked at for the ecosystem. */
  predicate Readable(properties: seq<Property>) {
    properties != [] ==> properties[0].Property? && (properties[0].name == Some(ECOSYSTEM) || Readable(properties[1..]))
  }

  function Without(properties: seq<Property>, name: string): seq<Property> {
    if properties == [] then []
    else (if Called(properties[0]) == Some(name) then [] else [properties[0]]) + Without(properties[1..], name)
  }

  /** Every property of the name gives way to one, at the end. */
  function SetProperty(properties: seq<Property>, name: string, value: string): seq<Property> {
    Without(properties, name) + [Property(Some(name), Some(value))]
  }

  /** The first ecosystem property, as text. */
  function Ecosystem(properties: seq<Property>): Option<string> {
    if properties == [] then None
    else if Called(properties[0]) == Some(ECOSYSTEM) then
      Some(if properties[0].value.Some? then properties[0].value.value else "None")
    else Ecosystem(properties[1..])
  }

  function SetAll(properties: seq<Property>, settings: seq<(string, string)>): seq<Property>
    decreases |settings|
  {
    if settings == [] then properties
    else SetAll(SetProperty(properties, settings[0].0, settings[0].1), settings[1..])
  }

  function Named(settings: seq<(string, string)>): seq<Property> {
    seq(|settings|, i requires 0 <= i < |settings| => Property(Some(settings[i].0), Some(settings[i].1)))
  }

  function WithoutAll(properties: seq<Property>, settings: seq<(string, string)>): seq<Property>
    decreases |settings|
  {
    if settings == [] then properties else WithoutAll(Without(properties, settings[0].0), settings[1..])
  }

  lemma {:induction false} WithoutMembers(properties: seq<Property>, name: string)
    ensures forall p :: p in Without(properties, name) <==> p in properties && Called(p) != Some(name)
  {
    if properties != [] { WithoutMembers(properties[1..], name); }
  }

  lemma {:induction false} WithoutJoin(a: seq<Property>, b: seq<Property>, name: string)
    ensures Without(a + b, name) == Without(a, name) + Without(b, name)
  {
    if a == [] {
      assert a + b == b;
    } else {
      WithoutJoin(a[1..], b, name);
      assert (a + b)[1..] == a[1..] + b;
    }
  }

  lemma {:induction false} WithoutAbsent(properties: seq<Property>, name: string)
    requires forall p :: p in properties ==> Called(p) != Some(name)
    ensures Without(properties, name) == properties
  {
    if properties != [] { WithoutAbsent(properties[1..], name); }
  }

  lemma {:induction false} WithoutCommutes(properties: seq<Property>, a: string, b: string)
    ensures Without(Without(properties, a), b) == Without(Without(properties, b), a)
  {
    if properties != [] {
      var head, tail := [properties[0]], properties[1..];
      WithoutCommutes(tail, a, b);
      WithoutJoin(Without(head, a), Without(tail, a), b);
      WithoutJoin(Without(head, b), Without(tail, b), a);
      assert head[1..] == [];
      assert properties == head + tail;
      WithoutJoin(head, tail, a);
      WithoutJoin(head, tail, b);
    }
  }

  predicate DistinctNames(settings: seq<(string, string)>) {
    forall i, j :: 0 <= i < j < |settings| ==> settings[i].0 != settings[j].0
  }

  lemma {:induction false} WithoutAllTail(properties: seq<Property>, last: Property, settings: seq<(string, string)>)
    requires forall i :: 0 <= i < |settings| ==> Some(settings[i].0) != Called(last)
    ensures WithoutAll(properties + [last], settings) == WithoutAll(properties, settings) + [last]
    decreases |settings|
  {
    if settings != [] {
      WithoutJoin(properties, [last], settings[0].0);
      WithoutAbsent([last], settings[0].0);
      WithoutAllTail(Without(properties, settings[0].0), last, settings[1..]);
    }
  }

  /** Different names set in turn: the other properties in their order, then these. */
  lemma {:induction false} SetAllShape(properties: seq<Property>, settings: seq<(string, string)>)
    requires DistinctNames(settings)
    ensures SetAll(properties, settings) == WithoutAll(properties, settings) + Named(settings)
    decreases |settings|
  {
    if settings == [] {
      assert WithoutAll(properties, settings) + Named(settings) == properties;
    } else {
      var rest := settings[1..];
      var last := Property(Some(settings[0].0), Some(settings[0].1));
      SetAllShape(SetProperty(properties, settings[0].0, settings[0].1), rest);
      WithoutAllTail(Without(properties, settings[0].0), last, rest);
      assert Named(settings) == [last] + Named(rest);
    }
  }

  lemma {:induction false} WithoutAllOnce(properties: seq<Property>, settings: seq<(string, string)>)
    requires forall p, i :: p in properties && 0 <= i < |settings| ==> Called(p) != Some(settings[i].0)
    ensures WithoutAll(properties, settings) == properties
    decreases |settings|
  {
    if settings != [] {
      WithoutAbsent(properties, settings[0].0);
      WithoutAllOnce(properties, settings[1..]);
    }
  }

  lemma {:induction false} WithoutAllLacks(properties: seq<Property>, settings: seq<(string, string)>)
    ensures forall p, i :: p in WithoutAll(properties, settings) && 0 <= i < |settings| ==> Called(p) != Some(settings[i].0)
    ensures forall p :: p in WithoutAll(properties, settings) ==> p in properties
    decreases |settings|
  {
    if settings != [] {
      WithoutMembers(properties, settings[0].0);
      WithoutAllLacks(Without(properties, settings[0].0), settings[1..]);
      assert forall i :: 0 < i < |settings| ==> settings[i] == settings[1..][i - 1];
    }
  }

  lemma {:induction false} WithoutAllJoin(a: seq<Property>, b: seq<Property>, settings: seq<(string, string)>)
    ensures WithoutAll(a + b, settings) == WithoutAll(a, settings) + WithoutAll(b, settings)
    decreases |settings|
  {
    if settings != [] {
      WithoutJoin(a, b, settings[0].0);
      WithoutAllJoin(Without(a, settings[0].0), Without(b, settings[0].0), settings[1..]);
    }
  }

  lemma Inhabited(properties: seq<Property>)
    ensures properties == [] || exists p :: p in properties
  {
    if properties != [] { assert properties[0] in properties; }
  }

  lemma {:induction false} WithoutAllNamed(some: seq<Property>, settings: seq<(string, string)>)
    requires forall p :: p in some ==> exists i :: 0 <= i < |settings| && Called(p) == Some(settings[i].0)
    ensures WithoutAll(some, settings) == []
    decreases |settings|
  {
    WithoutAllLacks(some, settings);
    Inhabited(WithoutAll(some, settings));
  }

  /** Set again, nothing changes, not even the order. */
  lemma SetAllTwice(properties: seq<Property>, settings: seq<(string, string)>)
    requires DistinctNames(settings)
    ensures SetAll(SetAll(properties, settings), settings) == SetAll(properties, settings)
  {
    var others := WithoutAll(properties, settings);
    SetAllShape(properties, settings);
    SetAllShape(others + Named(settings), settings);
    WithoutAllJoin(others, Named(settings), settings);
    WithoutAllLacks(properties, settings);
    WithoutAllOnce(others, settings);
    WithoutAllNamed(Named(settings), settings);
    assert others + [] == others;
  }

  lemma {:induction false} EcosystemKept(properties: seq<Property>, value: string)
    ensures Ecosystem(SetProperty(properties, STATUS, value)) == Ecosystem(properties)
  {
    if properties != [] {
      EcosystemKept(properties[1..], value);
      var rest, last := Without(properties[1..], STATUS), [Property(Some(STATUS), Some(value))];
      if Called(properties[0]) != Some(STATUS) {
        assert SetProperty(properties, STATUS, value) == [properties[0]] + (rest + last);
        assert (rest + last) == ([properties[0]] + (rest + last))[1..];
      } else {
        assert SetProperty(properties, STATUS, value) == rest + last;
      }
    }
  }

  lemma SetTwice(properties: seq<Property>, name: string, value: string)
    ensures SetProperty(SetProperty(properties, name, value), name, value) == SetProperty(properties, name, value)
  {
    var settings := [(name, value)];
    assert settings[1..] == [];
    assert SetAll(properties, settings) == SetAll(SetProperty(properties, name, value), []);
    SetAllTwice(properties, settings);
  }

  lemma {:induction false} ProperReads(properties: seq<Property>)
    requires Proper(properties)
    ensures Readable(properties)
  {
    if properties != [] { ProperReads(properties[1..]); }
  }

  lemma ProperSet(properties: seq<Property>, name: string, value: string)
    requires Proper(properties)
    ensures Proper(SetProperty(properties, name, value))
  {
    WithoutMembers(properties, name);
    var rest := Without(properties, name);
    forall i | 0 <= i < |rest| ensures rest[i].Property? { assert rest[i] in rest; }
  }

  lemma {:induction false} ProperSetAll(properties: seq<Property>, settings: seq<(string, string)>)
    requires Proper(properties)
    ensures Proper(SetAll(properties, settings))
    decreases |settings|
  {
    if settings != [] {
      ProperSet(properties, settings[0].0, settings[0].1);
      ProperSetAll(SetProperty(properties, settings[0].0, settings[0].1), settings[1..]);
    }
  }

  // ------------------------------------------------------------ components

  datatype Kind = Python(key: (string, string)) | Npm(name: string) | Other

  function KindOf(c: Component, canonical: string -> string): Kind
    requires c.Component?
  {
    var ecosystem := Ecosystem(c.properties);
    if ecosystem == Some("python") then Python((canonical(c.name), c.version))
    else if ecosystem == Some("npm") then Npm(c.name)
    else Other
  }

  predicate IsRequired(kind: Kind, payload: Payload) {
    match kind
    case Python(key) => key in payload.python
    case Npm(name) => name in payload.npm
    case Other => true
  }

  function StatusText(kind: Kind, payload: Payload): string {
    match kind
    case Python(key) => if key in payload.python then "included in frozen application" else "build environment only"
    case Npm(name) =>
      if name in payload.npm then "embedded in compiled web bundle" else "not present after production web tree-shaking"
    case Other => "included runtime component"
  }

  function Settle(c: Component, payload: Payload, canonical: string -> string): Component
    requires c.Component?
  {
    var kind := KindOf(c, canonical);
    c.(scope := Some(if IsRequired(kind, payload) then REQUIRED else EXCLUDED),
       properties := SetProperty(c.properties, STATUS, StatusText(kind, payload)))
  }

  /** The property at `i` is the first that names an ecosystem. */
  ghost predicate FirstEcosystem(properties: seq<Property>, i: int) {
    && 0 <= i < |properties| && Called(properties[i]) == Some(ECOSYSTEM)
    && forall j :: 0 <= j < i ==> Called(properties[j]) != Some(ECOSYSTEM)
  }

  lemma {:induction false} EcosystemMeans(properties: seq<Property>)
    ensures forall i :: FirstEcosystem(properties, i) ==>
              Ecosystem(properties) == Some(if properties[i].value.Some? then properties[i].value.value else "None")
    ensures (forall i :: 0 <= i < |properties| ==> Called(properties[i]) != Some(ECOSYSTEM)) ==> Ecosystem(properties) == None
  {
    if properties != [] && Called(properties[0]) != Some(ECOSYSTEM) {
      EcosystemMeans(properties[1..]);
      forall i | FirstEcosystem(properties, i)
        ensures Ecosystem(properties) == Some(if properties[i].value.Some? then properties[i].value.value else "None")
      {
        assert FirstEcosystem(properties[1..], i - 1);
      }
    }
  }

  /** After settling: a Python package is required exactly if the payload has that
      distribution in that version, an npm package exactly if it is bundled, and anything
      else always. */
  lemma ScopeMeans(c: Component, payload: Payload, canonical: string -> string, i: int)
    requires c.Component?
    ensures var s := Settle(c, payload, canonical);
            && (FirstEcosystem(c.properties, i) && c.properties[i].value == Some("python") ==>
                  (s.scope == Some("required") <==> (canonical(c.name), c.version) in payload.python))
            && (FirstEcosystem(c.properties, i) && c.properties[i].value == Some("npm") ==>
                  (s.scope == Some("required") <==> c.name in payload.npm))
            && (FirstEcosystem(c.properties, i) && c.properties[i].value !in {Some("python"), Some("npm")} ==>
                  s.scope == Some("required"))
            && ((forall j :: 0 <= j < |c.properties| ==> Called(c.properties[j]) != Some(ECOSYSTEM)) ==>
                  s.scope == Some("required"))
            && s.scope in {Some("required"), Some("excluded")}
  {
    EcosystemMeans(c.properties);
    assert REQUIRED[0] != EXCLUDED[0] && "python"[0] == 'p' && "npm"[0] == 'n' && "None"[0] == 'N';
  }

  /** Its scope alone set. */
  function Scoped(c: Component, payload: Payload, canonical: string -> string): Component
    requires c.Component?
  {
    c.(scope := Some(if IsRequired(KindOf(c, canonical), payload) then REQUIRED else EXCLUDED))
  }

  /** A component settled is what it is taken for, and settled for good. */
  lemma SettledAgain(c: Component, payload: Payload, canonical: string -> string)
    requires c.Component?
    ensures var s := Settle(c, payload, canonical);
            && s.Component? && s.name == c.name && s.version == c.version && s.reference == c.reference
            && KindOf(s, canonical) == KindOf(c, canonical)
            && (s.scope == Some(REQUIRED) <==> IsRequired(KindOf(c, canonical), payload))
            && (s.scope == Some(EXCLUDED) <==> !IsRequired(KindOf(c, canonical), payload))
            && Settle(s, payload, canonical) == s && (Proper(c.properties) ==> Proper(s.properties))
  {
    if Proper(c.properties) { ProperSet(c.properties, STATUS, StatusText(KindOf(c, canonical), payload)); }
    var kind := KindOf(c, canonical);
    EcosystemKept(c.properties, StatusText(kind, payload));
    SetTwice(c.properties, STATUS, StatusText(kind, payload));
    assert REQUIRED != EXCLUDED by { assert REQUIRED[0] != EXCLUDED[0]; }
  }

  /** Every component is an object, and so is every property it has. */
  predicate Objects(components: seq<Component>) {
    forall i | 0 <= i < |components| :: components[i].Component? && Proper(components[i].properties)
  }

  function SettleAll(components: seq<Component>, payload: Payload, canonical: string -> string): (settled: seq<Component>)
    requires Objects(components)
    ensures |settled| == |components|
    ensures forall i :: 0 <= i < |components| ==> settled[i] == Settle(components[i], payload, canonical)
  {
    seq(|components|, i requires 0 <= i < |components| => Settle(components[i], payload, canonical))
  }

  /** The references of the required components, in their order. */
  function References(components: seq<Component>, payload: Payload, canonical: string -> string): seq<string>
    requires Objects(components)
  {
    if components == [] then []
    else
      var front, last := References(components[..|components| - 1], payload, canonical), components[|components| - 1];
      if IsRequired(KindOf(last, canonical), payload) && last.reference.Some? then front + [last.reference.value] else front
  }

  function Add(counts: Counts, kind: Kind, payload: Payload): Counts {
    match kind
    case Python(_) =>
      if IsRequired(kind, payload) then counts.(python := counts.python + 1)
      else counts.(pythonExcluded := counts.pythonExcluded + 1)
    case Npm(_) =>
      if IsRequired(kind, payload) then counts.(npm := counts.npm + 1)
      else counts.(npmExcluded := counts.npmExcluded + 1)
    case Other => counts.(others := counts.others + 1)
  }

  function Tally(components: seq<Component>, payload: Payload, canonical: string -> string): Counts
    requires Objects(components)
  {
    if components == [] then Counts(0, 0, 0, 0, 0)
    else Add(Tally(components[..|components| - 1], payload, canonical), KindOf(components[|components| - 1], canonical), payload)
  }

  /** Where the required components stand. */
  function RequiredAt(components: seq<Component>, payload: Payload, canonical: string -> string): set<nat>
    requires Objects(components)
  {
    set i | 0 <= i < |components| && IsRequired(KindOf(components[i], canonical), payload)
  }

  lemma RequiredNext(components: seq<Component>, payload: Payload, canonical: string -> string)
    requires Objects(components) && components != []
    ensures var m := |components| - 1;
            var less, all := RequiredAt(components[..m], payload, canonical), RequiredAt(components, payload, canonical);
            m !in less && all == if IsRequired(KindOf(components[m], canonical), payload) then less + {m} else less
  {
  }

  /** The four counts and the other components make up the list, and the included
      ones with the others are the required. */
  lemma {:induction false} TallySums(components: seq<Component>, payload: Payload, canonical: string -> string)
    requires Objects(components)
    ensures var n := Tally(components, payload, canonical);
            && n.python + n.pythonExcluded + n.npm + n.npmExcluded + n.others == |components|
            && n.python + n.npm + n.others == |RequiredAt(components, payload, canonical)|
  {
    hide KindOf, RequiredAt;
    if components != [] {
      TallySums(components[..|components| - 1], payload, canonical);
      RequiredNext(components, payload, canonical);
    } else {
      assert RequiredAt(components, payload, canonical) == {} by { NoneRequired(payload, canonical); }
    }
  }

  lemma NoneRequired(payload: Payload, canonical: string -> string)
    ensures RequiredAt([], payload, canonical) == {}
  {
  }

  lemma {:induction false} SettlingAgrees(components: seq<Component>, payload: Payload, canonical: string -> string)
    requires Objects(components)
    ensures var s := SettleAll(components, payload, canonical);
            && Objects(s) && SettleAll(s, payload, canonical) == s
            && References(s, payload, canonical) == References(components, payload, canonical)
            && Tally(s, payload, canonical) == Tally(components, payload, canonical)
            && Kinds(s, canonical) == Kinds(components, canonical)
  {
    var s := SettleAll(components, payload, canonical);
    forall i | 0 <= i < |components| ensures s[i].Component? && Proper(s[i].properties)
                                             && Settle(s[i], payload, canonical) == s[i]
                                             && KindOf(s[i], canonical) == KindOf(components[i], canonical) {
      SettledAgain(components[i], payload, canonical);
    }
    if components != [] {
      var m := |components| - 1;
      SettlingAgrees(components[..m], payload, canonical);
      assert s[..m] == SettleAll(components[..m], payload, canonical);
      SettledAgain(components[m], payload, canonical);
    }
  }

  function Kinds(components: seq<Component>, canonical: string -> string): (kinds: seq<Kind>)
    requires Objects(components)
    ensures |kinds| == |components|
    ensures forall i :: 0 <= i < |components| ==> kinds[i] == KindOf(components[i], canonical)
  {
    seq(|components|, i requires 0 <= i < |components| => KindOf(components[i], canonical))
  }

  // ------------------------------------------------------------ texts in order

  /** Code point by code point, a prefix first. */
  predicate AtMost(a: string, b: string) {
    a == [] || (b != [] && (a[0] < b[0] || (a[0] == b[0] && AtMost(a[1..], b[1..]))))
  }

  lemma {:induction false} AtMostTotal(a: string, b: string)
    ensures AtMost(a, b) || AtMost(b, a)
    ensures AtMost(a, b) && AtMost(b, a) ==> a == b
  {
    if a != [] && b != [] && a[0] == b[0] {
      AtMostTotal(a[1..], b[1..]);
      assert a == [a[0]] + a[1..] && b == [b[0]] + b[1..];
    }
  }

  lemma {:induction false} AtMostThrough(a: string, b: string, c: string)
    requires AtMost(a, b) && AtMost(b, c)
    ensures AtMost(a, c)
  {
    if a != [] && a[0] == b[0] == c[0] { AtMostThrough(a[1..], b[1..], c[1..]); }
  }

  predicate InOrder(texts: seq<string>) {
    forall i, j | 0 <= i < j < |texts| :: AtMost(texts[i], texts[j])
  }

  function InsertText(texts: seq<string>, text: string): seq<string> {
    if texts == [] || AtMost(text, texts[0]) then [text] + texts else [texts[0]] + InsertText(texts[1..], text)
  }

  function SortTexts(texts: seq<string>): seq<string> {
    if texts == [] then [] else InsertText(SortTexts(texts[1..]), texts[0])
  }

  lemma {:induction false} InsertTextSorts(texts: seq<string>, text: string)
    requires InOrder(texts)
    ensures InOrder(InsertText(texts, text))
    ensures multiset(InsertText(texts, text)) == multiset(texts) + multiset{text}
  {
    if texts != [] && AtMost(text, texts[0]) {
      forall j | 0 <= j < |texts| ensures AtMost(text, texts[j]) {
        if j > 0 { AtMostThrough(text, texts[0], texts[j]); }
      }
    } else if texts != [] {
      hide AtMost;
      InsertTextSorts(texts[1..], text);
      AtMostTotal(text, texts[0]);
      var more := InsertText(texts[1..], text);
      assert texts == [texts[0]] + texts[1..];
      forall j | 0 <= j < |more| ensures AtMost(texts[0], more[j]) {
        assert more[j] in multiset(more);
        assert more[j] == text || more[j] in texts[1..];
      }
      assert InsertText(texts, text) == [texts[0]] + more;
    }
  }

  lemma {:induction false} SortTextsSorts(texts: seq<string>)
    ensures InOrder(SortTexts(texts)) && multiset(SortTexts(texts)) == multiset(texts)
  {
    if texts != [] {
      SortTextsSorts(texts[1..]);
      InsertTextSorts(SortTexts(texts[1..]), texts[0]);
      assert texts == [texts[0]] + texts[1..];
    }
  }

  function Decimal(n: nat): string {
    if n < 10 then [('0' as int + n) as char] else Decimal(n / 10) + [('0' as int + n % 10) as char]
  }

  // ------------------------------------------------------------ the document

  function Summary(counts: Counts): seq<(string, string)> {
    [("lm-atelier:payload-python-components", Decimal(counts.python)),
     ("lm-atelier:excluded-build-python-components", Decimal(counts.pythonExcluded)),
     ("lm-atelier:payload-npm-components", Decimal(counts.npm)),
     ("lm-atelier:excluded-npm-components", Decimal(counts.npmExcluded)),
     ("lm-atelier:payload-manifest", "payload-manifest.json")]
  }

  lemma SummaryNames(counts: Counts)
    ensures DistinctNames(Summary(counts))
  {
  }

  /** The document's own values. */
  datatype Bill = Bill(components: Option<seq<Component>>, root: Option<string>, metadata: seq<Property>,
                       dependencies: Option<(string, seq<string>)>)

  ghost predicate Answered(payload: Payload, components: seq<Component>, canonical: string -> string)
    requires Objects(components)
  {
    && (forall key :: key in payload.python && key.0 != OWN_PACKAGE ==> Python(key) in Kinds(components, canonical))
    && (forall name :: name in payload.npm ==> Npm(name) in Kinds(components, canonical))
  }

  predicate Referenced(components: seq<Component>, payload: Payload, canonical: string -> string)
    requires Objects(components)
  {
    forall i | 0 <= i < |components| ::
      IsRequired(KindOf(components[i], canonical), payload) ==> components[i].reference.Some?
  }

  /** What a reconciliation needs of the document. */
  ghost predicate Reconcilable(bill: Bill, payload: Payload, canonical: string -> string) {
    && bill.components.Some? && Objects(bill.components.value) && bill.root.Some? && Proper(bill.metadata)
    && Referenced(bill.components.value, payload, canonical)
    && Answered(payload, bill.components.value, canonical)
  }

  /** The document reconciled. */
  function Reconciled(bill: Bill, payload: Payload, canonical: string -> string): Bill
    requires bill.components.Some? && Objects(bill.components.value) && bill.root.Some?
  {
    var components := bill.components.value;
    Bill(Some(SettleAll(components, payload, canonical)), bill.root,
         SetAll(bill.metadata, Summary(Tally(components, payload, canonical))),
         Some((bill.root.value, SortTexts(References(components, payload, canonical)))))
  }

  /** A second run changes nothing, not even the order of properties. */
  lemma ReconciledTwice(bill: Bill, payload: Payload, canonical: string -> string)
    requires Reconcilable(bill, payload, canonical)
    ensures var once := Reconciled(bill, payload, canonical);
            && Reconcilable(once, payload, canonical) && Reconciled(once, payload, canonical) == once
            && Tally(once.components.value, payload, canonical) == Tally(bill.components.value, payload, canonical)
  {
    hide KindOf, Summary, SetAll, Settle, References, Tally;
    var components := bill.components.value;
    SettlingAgrees(components, payload, canonical);
    var counts := Tally(components, payload, canonical);
    SummaryNames(counts);
    SetAllTwice(bill.metadata, Summary(counts));
    ProperSetAll(bill.metadata, Summary(counts));
    var s := SettleAll(components, payload, canonical);
    forall i | 0 <= i < |s| && IsRequired(KindOf(s[i], canonical), payload) ensures s[i].reference.Some? {
      SettledAgain(components[i], payload, canonical);
    }
  }

  lemma {:induction false} ReferencesCounted(components: seq<Component>, payload: Payload, canonical: string -> string)
    requires Objects(components) && Referenced(components, payload, canonical)
    ensures |References(components, payload, canonical)| == |RequiredAt(components, payload, canonical)|
    ensures forall i :: i in RequiredAt(components, payload, canonical) ==>
              components[i].reference.value in References(components, payload, canonical)
  {
    hide KindOf, IsRequired;
    if components != [] {
      ReferencesCounted(components[..|components| - 1], payload, canonical);
      RequiredNext(components, payload, canonical);
    }
  }

  /** After a reconciliation every component is required or excluded, never both; the
      root depends on the required ones, each once, in order; the counts add up. */
  lemma ReconciledMeans(bill: Bill, payload: Payload, canonical: string -> string)
    requires Reconcilable(bill, payload, canonical)
    ensures var done, before := Reconciled(bill, payload, canonical), bill.components.value;
            var required := RequiredAt(before, payload, canonical);
            && |done.components.value| == |before|
            && (forall i :: 0 <= i < |before| ==>
                  var c := done.components.value[i];
                  && c.Component? && c.reference == before[i].reference
                  && (c.scope == Some(REQUIRED) <==> i in required) && (c.scope == Some(EXCLUDED) <==> i !in required))
            && done.dependencies.value.0 == bill.root.value
            && InOrder(done.dependencies.value.1)
            && multiset(done.dependencies.value.1) == multiset(References(before, payload, canonical))
            && |done.dependencies.value.1| == |required|
            && (forall i :: i in required ==> before[i].reference.value in done.dependencies.value.1)
  {
    hide KindOf, IsRequired, SetAll, Summary, Settle, SortTexts, References;
    var before := bill.components.value;
    var references := References(before, payload, canonical);
    forall i | 0 <= i < |before|
      ensures var c := Settle(before[i], payload, canonical);
              && c.Component? && c.reference == before[i].reference
              && (c.scope == Some(REQUIRED) <==> IsRequired(KindOf(before[i], canonical), payload))
              && (c.scope == Some(EXCLUDED) <==> !IsRequired(KindOf(before[i], canonical), payload)) {
      SettledAgain(before[i], payload, canonical);
    }
    SortTextsSorts(references);
    ReferencesCounted(before, payload, canonical);
    assert |SortTexts(references)| == |multiset(SortTexts(references))| == |multiset(references)| == |references|;
    forall i | i in RequiredAt(before, payload, canonical) ensures before[i].reference.value in SortTexts(references) {
      assert before[i].reference.value in multiset(references);
    }
  }

  class Document {
    const canonical: string -> string
    var components: Option<seq<Component>>
    var root: Option<string>
    var metadata: seq<Property>
    var dependencies: Option<(string, seq<string>)>

    constructor (bill: Bill, canonical: string -> string)
      ensures Value() == bill && this.canonical == canonical
    {
      this.canonical := canonical;
      components, root, metadata, dependencies := bill.components, bill.root, bill.metadata, bill.dependencies;
    }

    function Value(): Bill reads this {
      Bill(components, root, metadata, dependencies)
    }

    /** A component is as it was, has its scope alone set, or is settled. */
    predicate Touched(before: Component, after: Component, payload: Payload) {
      || after == before
      || (before.Component? && after in {Scoped(before, payload, canonical), Settle(before, payload, canonical)})
    }

    /** Each component settled in turn; the references of the required, the counts. */
    method Scan(payload: Payload) returns (r: Result<(Counts, seq<string>, seq<Kind>)>)
      requires components.Some?
      modifies this`components
      ensures components.Some? && |components.value| == |old(components).value|
      ensures forall i :: 0 <= i < |components.value| ==> Touched(old(components).value[i], components.value[i], payload)
      ensures var before := old(components).value;
              match r
              case Ok((counts, references, kinds)) =>
                && Objects(before) && Referenced(before, payload, canonical)
                && components.value == SettleAll(before, payload, canonical)
                && counts == Tally(before, payload, canonical) && references == References(before, payload, canonical)
                && kinds == Kinds(before, canonical)
              case Fail(_) => !Objects(before) || !Referenced(before, payload, canonical)
    {
      hide KindOf, Settle, IsRequired, StatusText;
      var before := components.value;
      var counts, references, kinds := Counts(0, 0, 0, 0, 0), [], [];
      for i := 0 to |before|
        invariant components.Some? && Objects(before[..i]) && Referenced(before[..i], payload, canonical)
        invariant components.value == SettleAll(before[..i], payload, canonical) + before[i..]
        invariant forall j :: 0 <= j < i ==> Touched(before[j], components.value[j], payload)
        invariant counts == Tally(before[..i], payload, canonical)
        invariant references == References(before[..i], payload, canonical)
        invariant kinds == Kinds(before[..i], canonical)
      {
        var component := before[i];
        if component.NotObject? { return Fail(NotAnObject); }
        if !Readable(component.properties) {
          if Proper(component.properties) { ProperReads(component.properties); }
          return Fail(NotAProperty);
        }
        var kind := KindOf(component, canonical);
        if !Proper(component.properties) {
          components := Some(components.value[i := Scoped(component, payload, canonical)]);
          return Fail(NotAProperty);
        }
        NextSettled(before, i, payload, canonical);
        components := Some(components.value[i := Settle(component, payload, canonical)]);
        if IsRequired(kind, payload) {
          if component.reference.None? { return Fail(NoReference); }
          references := references + [component.reference.value];
        }
        counts := Add(counts, kind, payload);
        kinds := kinds + [kind];
      }
      assert before[..|before|] == before && before[|before|..] == [];
      return Ok((counts, references, kinds));
    }

    /** The summary properties set in turn, unless a property there is no object. */
    method Summarize(counts: Counts) returns (r: Result<()>)
      modifies this`metadata
      ensures r.Ok? <==> Proper(old(metadata))
      ensures metadata == if r.Ok? then SetAll(old(metadata), Summary(counts)) else old(metadata)
    {
      if !Proper(metadata) { return Fail(NotAProperty); }
      var settings := Summary(counts);
      assert settings[0..] == settings;
      for i := 0 to |settings|
        invariant SetAll(metadata, settings[i..]) == SetAll(old(metadata), settings)
      {
        metadata := SetProperty(metadata, settings[i].0, settings[i].1);
        assert settings[i..][1..] == settings[i + 1..];
      }
      assert settings[|settings|..] == [];
      return Ok(());
    }

    /** The included packages that no component stands for. */
    method Missing(payload: Payload, kinds: seq<Kind>) returns (error: Option<Error>)
      ensures error.None? <==> && (forall key :: key in payload.python && key.0 != OWN_PACKAGE ==> Python(key) in kinds)
                               && (forall name :: name in payload.npm ==> Npm(name) in kinds)
    {
      if exists key | key in payload.python :: key.0 != OWN_PACKAGE && Python(key) !in kinds { return Some(MissingPython); }
      if exists name | name in payload.npm :: Npm(name) !in kinds { return Some(MissingNpm); }
      return None;
    }

    /** The whole reconciliation; a document that cannot be reconciled keeps its
        metadata, and its dependencies unless it is the metadata that stopped it. */
    method Reconcile(payload: Payload) returns (r: Result<Counts>)
      modifies this
      ensures r.Ok? <==> Reconcilable(old(Value()), payload, canonical)
      ensures r.Ok? ==> Value() == Reconciled(old(Value()), payload, canonical)
                        && r.value == Tally(old(components).value, payload, canonical)
      ensures r.Fail? ==> metadata == old(metadata) && root == old(root)
                          && (dependencies == old(dependencies)
                              || (!Proper(metadata) && root.Some?
                                  && old(components).Some? && Objects(old(components).value)
                                  && dependencies == Reconciled(old(Value()), payload, canonical).dependencies))
    {
      hide KindOf, Settle, Tally, References, SettleAll, Referenced, Kinds, Objects, Summary, SetAll, SortTexts;
      if components.None? { return Fail(NotAList); }
      var scanned := Scan(payload);
      if scanned.Fail? { return Fail(scanned.error); }
      var missing := Missing(payload, scanned.value.2);
      if missing.Some? { return Fail(missing.value); }
      if root.None? { return Fail(NoRoot); }
      dependencies := Some((root.value, SortTexts(scanned.value.1)));
      var summarized := Summarize(scanned.value.0);
      if summarized.Fail? { return Fail(summarized.error); }
      return Ok(scanned.value.0);
    }
  }

  lemma NextSettled(before: seq<Component>, i: nat, payload: Payload, canonical: string -> string)
    requires i < |before| && Objects(before[..i]) && before[i].Component? && Proper(before[i].properties)
    ensures Objects(before[..i + 1])
    ensures var part, more := before[..i], before[..i + 1];
            var settled := Settle(before[i], payload, canonical);
            && (SettleAll(part, payload, canonical) + before[i..])[i := settled]
               == SettleAll(more, payload, canonical) + before[i + 1..]
            && Kinds(more, canonical) == Kinds(part, canonical) + [KindOf(before[i], canonical)]
            && Tally(more, payload, canonical) == Add(Tally(part, payload, canonical), KindOf(before[i], canonical), payload)
            && References(more, payload, canonical) ==
               References(part, payload, canonical)
               + (if IsRequired(KindOf(before[i], canonical), payload) && before[i].reference.Some? then [before[i].reference.value] else [])
            && (Referenced(more, payload, canonical) <==>
                  Referenced(part, payload, canonical)
                  && (IsRequired(KindOf(before[i], canonical), payload) ==> before[i].reference.Some?))
  {
    hide KindOf, Settle, IsRequired;
    var part, more := before[..i], before[..i + 1];
    assert more[..i] == part && more[i] == before[i];
    assert SettleAll(more, payload, canonical) == SettleAll(part, payload, canonical) + [Settle(before[i], payload, canonical)];
    assert forall j :: 0 <= j < i ==> part[j] == more[j];
  }
}
