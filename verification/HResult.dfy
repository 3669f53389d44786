/**
  Error codes as HRESULTs.  A registry numbers error categories; the number travels in the
  facility bits of an HRESULT that carries the customer bit.  [MS-ERREF] section 2.1 lays the
  32 bits out as S R C N X, an 11-bit facility and a 16-bit code; the facility mask of the
  platform headers is two bits wider and takes in N and X.
  */
module HResults {
  import opened Wrappers
  import opened Bits

  /** A 32-bit pattern, read as an unsigned number. */
  type Word = w: nat | w < 0x1_0000_0000

  const SEVERITY_BIT: Word := 0x8000_0000
  const CUSTOMER_BIT: Word := 0x2000_0000
  const E_FAIL: Word := 0x8000_4005
  /** The counter is a signed 32-bit integer. */
  const LAST_FACILITY: nat := 0x7fff_ffff

  /** Categories are compared by address: each is itself and nothing else. */
  datatype Category = HResultCategory | Generic | Iostream | Future | System | Custom(id: nat)

  datatype ErrorCode = ErrorCode(value: Word, category: Category)

  /** The three top bits: severity, reserved, customer. */
  function TopOf(h: Word): nat { Shr(h, 29) }

  function FacilityOf(h: Word): nat { Low(Shr(h, 16), 13) }

  function CodeOf(h: Word): Word {
    Fits(h, 16);
    Low(h, 16)
  }

  predicate HasCustomerBit(h: Word) { Low(TopOf(h), 1) == 1 }

  /** MAKE_HRESULT with an error severity, and the customer bit. */
  function MakeHresultCode(facility: nat, code: Word): Word {
    MadeFits(facility, code);
    Made(facility, code)
  }

  function Made(facility: nat, code: Word): nat {
    Or(Or(Or(SEVERITY_BIT, Low(Shl(facility, 16), 32)), code), CUSTOMER_BIT)
  }

  // --- the registry ----------------------------------------------------------------------------

  datatype Registry = Registry(facilities: map<Category, nat>, categories: map<nat, Category>, next: nat)

  /** std::unordered_map::emplace: a key that is there keeps its value. */
  function Emplaced<K, V>(m: map<K, V>, k: K, v: V): map<K, V> {
    if k in m then m else m[k := v]
  }

  function Added(r: Registry, c: Category): Registry
    requires r.next < LAST_FACILITY
  {
    Registry(Emplaced(r.facilities, c, r.next), Emplaced(r.categories, r.next, c), r.next + 1)
  }

  /** Registrations in order; None when the counter would overflow. */
  function AddedAll(r: Registry, cs: seq<Category>): Option<Registry>
    decreases |cs|
  {
    if cs == [] then Some(r)
    else if r.next >= LAST_FACILITY then None
    else AddedAll(Added(r, cs[0]), cs[1..])
  }

  const EMPTY := Registry(map[], map[], 0)
  const BUILT_IN := [Generic, Iostream, Future, System]

  function After(cs: seq<Category>): Option<Registry> {
    AddedAll(EMPTY, BUILT_IN + cs)
  }

  /** The position c was first registered at, or the length. */
  function FirstIndex(all: seq<Category>, c: Category): (k: nat)
    ensures k <= |all|
    ensures k < |all| ==> all[k] == c
    ensures forall i :: 0 <= i < k ==> all[i] != c
  {
    if all == [] || all[0] == c then 0 else 1 + FirstIndex(all[1..], c)
  }

  /** The registry a list of registrations should lead to: facility f is the f-th, and a category keeps its first. */
  function RegistryOf(all: seq<Category>): Registry {
    Registry(FirstIndices(all), Positions(all), |all|)
  }

  function FirstIndices(all: seq<Category>): (m: map<Category, nat>)
    ensures forall c :: c in m <==> c in all
    ensures forall c :: c in m ==> m[c] == FirstIndex(all, c)
  {
    map c | c in all :: FirstIndex(all, c)
  }

  function Positions(all: seq<Category>): (m: map<nat, Category>)
    ensures forall f: nat :: f in m <==> f < |all|
    ensures forall f: nat :: f in m ==> m[f] == all[f]
  {
    map f: nat | f < |all| :: all[f]
  }

  lemma FirstIndexIs(all: seq<Category>, c: Category, k: nat)
    requires k < |all| && all[k] == c && forall i :: 0 <= i < k ==> all[i] != c
    ensures FirstIndex(all, c) == k
  {
  }

  lemma FirstIndexKept(all: seq<Category>, c: Category, d: Category)
    requires d in all + [c]
    ensures FirstIndex(all + [c], d) == if d in all then FirstIndex(all, d) else |all|
  {
    var k := if d in all then FirstIndex(all, d) else |all|;
    var more := all + [c];
    assert forall i :: 0 <= i < |all| ==> more[i] == all[i];
    FirstIndexIs(more, d, k);
  }

  lemma NextFacility(all: seq<Category>, c: Category)
    ensures Emplaced(FirstIndices(all), c, |all|) == FirstIndices(all + [c])
  {
    var a, b := Emplaced(FirstIndices(all), c, |all|), FirstIndices(all + [c]);
    forall d | d in b
      ensures d in a && a[d] == b[d]
    {
      FirstIndexKept(all, c, d);
    }
    assert forall d :: d in a ==> d in all + [c];
  }

  lemma NextPosition(all: seq<Category>, c: Category)
    ensures Emplaced(Positions(all), |all|, c) == Positions(all + [c])
  {
    var a, b := Emplaced(Positions(all), |all|, c), Positions(all + [c]);
    assert forall f: nat :: f in a <==> f in b;
    assert forall f: nat :: f in b ==> a[f] == b[f];
  }

  lemma AddedNext(all: seq<Category>, c: Category)
    requires |all| < LAST_FACILITY
    ensures Added(RegistryOf(all), c) == RegistryOf(all + [c])
  {
    NextFacility(all, c);
    NextPosition(all, c);
  }

  lemma AddedNone(all: seq<Category>, cs: seq<Category>)
    requires |all| == LAST_FACILITY && cs != []
    ensures AddedAll(RegistryOf(all), cs) == None
  {
  }

  lemma AddedOne(all: seq<Category>, cs: seq<Category>)
    requires |all| < LAST_FACILITY && cs != []
    ensures AddedAll(RegistryOf(all), cs) == AddedAll(RegistryOf(all + [cs[0]]), cs[1..])
  {
    AddedNext(all, cs[0]);
  }

  lemma MovedOver(all: seq<Category>, cs: seq<Category>)
    ensures all + [] == all
    ensures cs != [] ==> all + [cs[0]] + cs[1..] == all + cs
  {
  }

  lemma {:induction false} AddedAllInOrder(all: seq<Category>, cs: seq<Category>)
    requires |all| <= LAST_FACILITY
    ensures AddedAll(RegistryOf(all), cs)
         == if |all| + |cs| <= LAST_FACILITY then Some(RegistryOf(all + cs)) else None
    decreases |cs|
  {
    MovedOver(all, cs);
    if cs != [] && |all| == LAST_FACILITY {
      AddedNone(all, cs);
    } else if cs != [] {
      AddedOne(all, cs);
      AddedAllInOrder(all + [cs[0]], cs[1..]);
    }
  }

  /** The registry after any registrations, duplicates included, in terms of the list of them. */
  lemma RegisteredInOrder(cs: seq<Category>)
    ensures After(cs) == if 4 + |cs| <= LAST_FACILITY then Some(RegistryOf(BUILT_IN + cs)) else None
  {
    AddedAllInOrder([], BUILT_IN + cs);
    assert RegistryOf([]) == EMPTY;
    assert [] + (BUILT_IN + cs) == BUILT_IN + cs;
  }

  // --- the two conversions -----------------------------------------------------------------------

  /** An HRESULT that stands for an error code of a registered category. */
  predicate Carries(r: Registry, h: Word) {
    HasCustomerBit(h) && FacilityOf(h) in r.categories
  }

  function Decode(r: Registry, h: Word): ErrorCode {
    if Carries(r, h) then ErrorCode(CodeOf(h), r.categories[FacilityOf(h)])
    else ErrorCode(h, HResultCategory)
  }

  function Encode(r: Registry, e: ErrorCode): Word {
    if e.category == HResultCategory then e.value
    else if e.category in r.facilities then MakeHresultCode(r.facilities[e.category], e.value)
    else E_FAIL
  }

  // --- bits ----------------------------------------------------------------------------------------

  /** A word is its top bits, its facility and its code. */
  lemma ThreeFields(h: Word, h': Word)
    ensures h == h' <==> TopOf(h) == TopOf(h') && FacilityOf(h) == FacilityOf(h') && CodeOf(h) == CodeOf(h')
  {
    SameParts(h, h', 16);
    SameParts(Shr(h, 16), Shr(h', 16), 13);
    ShrShr(h, 16, 13);
    ShrShr(h', 16, 13);
  }

  lemma FieldsBounded(h: Word)
    ensures TopOf(h) < 8 && FacilityOf(h) < 0x2000 && CodeOf(h) < 0x1_0000
  {
    Powers();
    DivMod(h, 29);
    Split(Shr(h, 16), 13);
    Split(h, 16);
  }

  lemma Constants()
    ensures Low(SEVERITY_BIT, 16) == 0 && Shr(SEVERITY_BIT, 16) == 0x8000
    ensures Low(CUSTOMER_BIT, 16) == 0 && Shr(CUSTOMER_BIT, 16) == 0x2000
    ensures Low(0x8000, 13) == 0 && Shr(0x8000, 13) == 4
    ensures Low(0x2000, 13) == 0 && Shr(0x2000, 13) == 1
    ensures Shr(SEVERITY_BIT, 32) == 0 && Shr(CUSTOMER_BIT, 32) == 0
  {
    Powers();
    ConstantIs(SEVERITY_BIT, 16, 0x8000, 0x1_0000);
    ConstantIs(CUSTOMER_BIT, 16, 0x2000, 0x1_0000);
    ConstantIs(0x8000, 13, 4, 0x2000);
    ConstantIs(0x2000, 13, 1, 0x2000);
    Fits(SEVERITY_BIT, 32);
    Fits(CUSTOMER_BIT, 32);
  }

  lemma ConstantIs(x: nat, k: nat, high: nat, p: nat)
    requires Pow2(k) == p && x == high * p
    ensures Low(x, k) == 0 && Shr(x, k) == high
  {
    DivMod(x, k);
    Quotient(x, p, high, 0);
  }

  lemma MadeFits(facility: nat, code: Word)
    ensures Made(facility, code) < 0x1_0000_0000
  {
    var f, a := Low(Shl(facility, 16), 32), Or(SEVERITY_BIT, Low(Shl(facility, 16), 32));
    Powers();
    Constants();
    OrShr(SEVERITY_BIT, f, 32);
    OrShr(a, code, 32);
    OrShr(Or(a, code), CUSTOMER_BIT, 32);
    Split(Shl(facility, 16), 32);
    Fits(f, 32);
    Fits(code, 32);
    Fits(Made(facility, code), 32);
    OrZero(0);
  }

  /** The code comes back whole; what is above 16 bits in it lands in the facility. */
  lemma MadeCode(facility: nat, code: Word)
    ensures CodeOf(MakeHresultCode(facility, code)) == CodeOf(code)
  {
    var f, a := Low(Shl(facility, 16), 32), Or(SEVERITY_BIT, Low(Shl(facility, 16), 32));
    Constants();
    OrLow(SEVERITY_BIT, f, 16);
    OrLow(a, code, 16);
    OrLow(Or(a, code), CUSTOMER_BIT, 16);
    LowLow(Shl(facility, 16), 16, 32);
    Shifted(facility, 16);
    OrZero(0);
    OrZero(CodeOf(code));
  }

  lemma MadeUpper(facility: nat, code: Word)
    ensures Shr(MakeHresultCode(facility, code), 16)
         == Or(Or(Or(0x8000, Low(facility, 16)), Shr(code, 16)), 0x2000)
  {
    var f, a := Low(Shl(facility, 16), 32), Or(SEVERITY_BIT, Low(Shl(facility, 16), 32));
    Constants();
    OrShr(SEVERITY_BIT, f, 16);
    OrShr(a, code, 16);
    OrShr(Or(a, code), CUSTOMER_BIT, 16);
    ShrLow(Shl(facility, 16), 16, 16);
    Shifted(facility, 16);
  }

  lemma MadeFacility(facility: nat, code: Word)
    requires code < 0x1_0000
    ensures FacilityOf(MakeHresultCode(facility, code)) == Low(facility, 13)
  {
    var f := Low(facility, 16);
    Powers();
    Constants();
    MadeUpper(facility, code);
    Fits(code, 16);
    OrZero(Or(0x8000, f));
    OrLow(Or(0x8000, f), 0x2000, 13);
    OrLow(0x8000, f, 13);
    LowLow(facility, 13, 16);
    OrZero(Low(facility, 13));
  }

  lemma MadeTop(facility: nat, code: Word)
    ensures HasCustomerBit(MakeHresultCode(facility, code))
    ensures facility < 0x2000 && code < 0x1_0000 ==> TopOf(MakeHresultCode(facility, code)) == 5
  {
    MadeTopIs(facility, code);
    OddIsOdd(Shr(Or(Or(0x8000, Low(facility, 16)), Shr(code, 16)), 13));
    if facility < 0x2000 && code < 0x1_0000 { NothingAbove(facility, code); }
  }

  lemma MadeTopIs(facility: nat, code: Word)
    ensures TopOf(MakeHresultCode(facility, code))
         == Or(Shr(Or(Or(0x8000, Low(facility, 16)), Shr(code, 16)), 13), 1)
  {
    Constants();
    MadeUpper(facility, code);
    ShrShr(MakeHresultCode(facility, code), 16, 13);
    OrShr(Or(Or(0x8000, Low(facility, 16)), Shr(code, 16)), 0x2000, 13);
  }

  lemma OddIsOdd(x: nat)
    ensures Low(Or(x, 1), 1) == 1 && (x == 4 ==> Or(x, 1) == 5)
  {
  }

  lemma NothingAbove(facility: nat, code: Word)
    requires facility < 0x2000 && code < 0x1_0000
    ensures Shr(Or(Or(0x8000, Low(facility, 16)), Shr(code, 16)), 13) == 4
  {
    Powers();
    Constants();
    Fits(facility, 16);
    Fits(facility, 13);
    Fits(code, 16);
    OrZero(Or(0x8000, facility));
    OrShr(0x8000, facility, 13);
    OrZero(4);
  }

  lemma MaskedFacility(facility: nat)
    ensures facility < 0x2000 <==> Low(facility, 13) == facility
    ensures Low(facility, 13) <= facility
  {
    Powers();
    Fits(facility, 13);
  }

  /** A word is rebuilt from a facility and its code exactly when its facility and top bits are the ones written. */
  lemma Rebuilt(facility: nat, h: Word)
    ensures MakeHresultCode(facility, CodeOf(h)) == h
       <==> Low(facility, 13) == FacilityOf(h) && TopOf(MakeHresultCode(facility, CodeOf(h))) == TopOf(h)
  {
    FieldsBounded(h);
    MadeCode(facility, CodeOf(h));
    LowLow(h, 16, 16);
    MadeFacility(facility, CodeOf(h));
    ThreeFields(MakeHresultCode(facility, CodeOf(h)), h);
  }

  lemma CustomerNotCode(h: Word)
    requires HasCustomerBit(h)
    ensures CodeOf(h) != h
  {
    Powers();
    FieldsBounded(h);
    DivMod(h, 29);
  }

  // --- theorems ------------------------------------------------------------------------------------

  /** The codes with a place in an HRESULT. */
  predicate Encodable(r: Registry, e: ErrorCode) {
    e.category != HResultCategory && e.category in r.facilities && r.facilities[e.category] < 0x2000
    && e.value <= 0xffff
  }

  /**
    Encode then decode.  Whatever was registered, an error code comes back exactly when its
    category is registered under a facility that fits 13 bits and its value fits 16; an
    HRESULT in an error code comes back exactly when it does not look like a carried code.
    */
  lemma EncodeThenDecode(cs: seq<Category>, e: ErrorCode)
    requires After(cs).Some?
    ensures var r := After(cs).value;
            (Decode(r, Encode(r, e)) == e <==>
             if e.category == HResultCategory then !Carries(r, e.value) else Encodable(r, e))
  {
    var r := After(cs).value;
    RegisteredInOrder(cs);
    if e.category == HResultCategory {
      if Carries(r, e.value) { CustomerNotCode(e.value); }
    } else if e.category in r.facilities {
      RegisteredComesBack(r, BUILT_IN + cs, e);
    } else {
      PlainFailure();
    }
  }

  lemma PlainFailure()
    ensures !HasCustomerBit(E_FAIL) && TopOf(E_FAIL) == 4
  {
    Powers();
    DivMod(E_FAIL, 29);
    assert Low(4, 1) == 0;
  }

  lemma RegisteredComesBack(r: Registry, all: seq<Category>, e: ErrorCode)
    requires r == RegistryOf(all) && e.category != HResultCategory && e.category in r.facilities
    ensures Decode(r, Encode(r, e)) == e <==> r.facilities[e.category] < 0x2000 && e.value <= 0xffff
  {
    var f, v := r.facilities[e.category], e.value;
    MadeTop(f, v);
    MadeCode(f, v);
    FieldsBounded(v);
    if v < 0x1_0000 {
      Powers();
      Fits(v, 16);
      MadeFacility(f, v);
      MaskedFacility(f);
      SmallerFacility(r, all, e.category, Low(f, 13));
    }
  }

  /** A facility below the one of a registered category is given out, and to another category. */
  lemma SmallerFacility(r: Registry, all: seq<Category>, c: Category, g: nat)
    requires r == RegistryOf(all) && c in r.facilities && g <= r.facilities[c]
    ensures g in r.categories && (r.categories[g] == c <==> g == r.facilities[c])
  {
  }

  /** The facility is the one its category encodes to. */
  predicate OwnFacility(r: Registry, f: nat)
    requires f in r.categories
  {
    var c := r.categories[f];
    c != HResultCategory && c in r.facilities && r.facilities[c] == f
  }

  /**
    Decode then encode.  An HRESULT survives exactly when it carries nothing, or its facility
    is the first one of its category and the severity and reserved bits are the ones encode
    writes.  A second registration of a category therefore gives a facility that never
    survives, and so does a registration of the HRESULT category itself.
    */
  lemma DecodeThenEncode(cs: seq<Category>, h: Word)
    requires After(cs).Some?
    ensures var r := After(cs).value;
            (Encode(r, Decode(r, h)) == h <==>
             !Carries(r, h) || (TopOf(h) == 5 && OwnFacility(r, FacilityOf(h))))
  {
    var r := After(cs).value;
    RegisteredInOrder(cs);
    if Carries(r, h) {
      CustomerNotCode(h);
      var c := r.categories[FacilityOf(h)];
      if c != HResultCategory {
        var f := r.facilities[c];
        FieldsBounded(h);
        MaskedFacility(f);
        MadeTop(f, CodeOf(h));
        Rebuilt(f, h);
      }
    }
  }

  /** Two error codes that fit never share an HRESULT. */
  lemma EncodeInjective(cs: seq<Category>, e: ErrorCode, e': ErrorCode)
    requires After(cs).Some?
    requires Encodable(After(cs).value, e) && Encodable(After(cs).value, e')
    requires Encode(After(cs).value, e) == Encode(After(cs).value, e')
    ensures e == e'
  {
    EncodeThenDecode(cs, e);
    EncodeThenDecode(cs, e');
  }

  /** What encode writes follows the layout: S and C set, and R, N and X clear exactly when the facility fits 11 bits. */
  lemma EncodedLayout(r: Registry, e: ErrorCode)
    requires Encodable(r, e)
    ensures var h := Encode(r, e);
            && TopOf(h) == 5 && CodeOf(h) == e.value
            && (Low(Shr(h, 27), 2) == 0 <==> r.facilities[e.category] < 0x800)
  {
    var f := r.facilities[e.category];
    var h := Encode(r, e);
    Powers();
    MadeTop(f, e.value);
    MadeCode(f, e.value);
    Fits(e.value, 16);
    MadeFacility(f, e.value);
    Fits(f, 13);
    ShrLow(Shr(h, 16), 11, 2);
    ShrShr(h, 16, 11);
    Fits(f, 11);
  }

  /** The number encode makes of a facility and a code that fit. */
  lemma MadeValue(facility: nat, code: Word)
    requires facility < 0x2000 && code < 0x1_0000
    ensures MakeHresultCode(facility, code) == 0xA000_0000 + facility * 0x1_0000 + code
  {
    var h := MakeHresultCode(facility, code);
    Powers();
    MadeTop(facility, code);
    MadeCode(facility, code);
    Fits(code, 16);
    MadeFacility(facility, code);
    Fits(facility, 13);
    Split(h, 16);
    Split(Shr(h, 16), 13);
    ShrShr(h, 16, 13);
  }

  /** An encoded code is a number that says facility and value in full. */
  lemma EncodedValue(r: Registry, e: ErrorCode)
    requires Encodable(r, e)
    ensures Encode(r, e) == 0xA000_0000 + r.facilities[e.category] * 0x1_0000 + e.value
  {
    MadeValue(r.facilities[e.category], e.value);
  }

  /** The standard categories have the first four facilities, whatever is registered besides. */
  lemma StandardFacilities(cs: seq<Category>)
    requires After(cs).Some?
    ensures var f := After(cs).value.facilities;
            && Generic in f && f[Generic] == 0 && Iostream in f && f[Iostream] == 1
            && Future in f && f[Future] == 2 && System in f && f[System] == 3
  {
    RegisteredInOrder(cs);
    var all := BUILT_IN + cs;
    FirstIndexIs(all, Generic, 0);
    FirstIndexIs(all, Iostream, 1);
    FirstIndexIs(all, Future, 2);
    FirstIndexIs(all, System, 3);
  }

  /** e and h stand for each other. */
  predicate Stands(r: Registry, e: ErrorCode, h: Word) {
    Encode(r, e) == h && Decode(r, h) == e
  }

  /** So their codes have fixed HRESULTs, both ways. */
  lemma StandardCodes(cs: seq<Category>, v: Word)
    requires After(cs).Some? && v <= 0xffff
    ensures var r := After(cs).value;
            && Stands(r, ErrorCode(v, Generic), 0xA000_0000 + v) && Stands(r, ErrorCode(v, Iostream), 0xA001_0000 + v)
            && Stands(r, ErrorCode(v, Future), 0xA002_0000 + v) && Stands(r, ErrorCode(v, System), 0xA003_0000 + v)
  {
    StandardFacilities(cs);
    StandardCode(cs, Generic, 0, v);
    StandardCode(cs, Iostream, 1, v);
    StandardCode(cs, Future, 2, v);
    StandardCode(cs, System, 3, v);
  }

  lemma StandardCode(cs: seq<Category>, c: Category, facility: nat, v: Word)
    requires After(cs).Some? && v <= 0xffff && facility < 4 && c != HResultCategory
    requires c in After(cs).value.facilities && After(cs).value.facilities[c] == facility
    ensures Stands(After(cs).value, ErrorCode(v, c), 0xA000_0000 + facility * 0x1_0000 + v)
  {
    EncodedValue(After(cs).value, ErrorCode(v, c));
    EncodeThenDecode(cs, ErrorCode(v, c));
  }

  /** A code of a category nobody registered becomes E_FAIL: a failure, and no carried code. */
  lemma UnknownFails(cs: seq<Category>, e: ErrorCode)
    requires After(cs).Some? && e.category != HResultCategory && e.category !in BUILT_IN + cs
    ensures var r := After(cs).value;
            var h := Encode(r, e);
            h == 0x8000_4005 && TopOf(h) == 4 && Decode(r, h) == ErrorCode(h, HResultCategory)
  {
    RegisteredInOrder(cs);
    PlainFailure();
  }

  // --- growth --------------------------------------------------------------------------------------

  /** Everything r knows, s knows alike. */
  ghost predicate Grows(r: Registry, s: Registry) {
    && r.next <= s.next
    && (forall c: Category :: c in r.facilities ==> c in s.facilities && s.facilities[c] == r.facilities[c])
    && (forall f: nat :: f in r.categories ==> f in s.categories && s.categories[f] == r.categories[f])
  }

  lemma {:induction false} AddedAllGrows(r: Registry, cs: seq<Category>)
    requires AddedAll(r, cs).Some?
    ensures Grows(r, AddedAll(r, cs).value)
    decreases |cs|
  {
    if cs != [] {
      AddedAllGrows(Added(r, cs[0]), cs[1..]);
    }
  }

  lemma {:induction false} AddedAllSplits(r: Registry, cs: seq<Category>, ds: seq<Category>)
    ensures AddedAll(r, cs + ds)
         == if AddedAll(r, cs).Some? then AddedAll(AddedAll(r, cs).value, ds) else None
    decreases |cs|
  {
    if cs == [] {
      assert cs + ds == ds;
    } else {
      assert (cs + ds)[1..] == cs[1..] + ds;
      if r.next < LAST_FACILITY { AddedAllSplits(Added(r, cs[0]), cs[1..], ds); }
    }
  }

  lemma RegistrationsGrow(cs: seq<Category>, ds: seq<Category>)
    requires After(cs + ds).Some?
    ensures After(cs).Some? && Grows(After(cs).value, After(cs + ds).value)
  {
    assert BUILT_IN + (cs + ds) == (BUILT_IN + cs) + ds;
    AddedAllSplits(EMPTY, BUILT_IN + cs, ds);
    AddedAllGrows(After(cs).value, ds);
  }

  /** The facilities below the counter, and no others, have a category. */
  ghost predicate GivenOut(r: Registry) {
    forall f: nat :: f in r.categories <==> f < r.next
  }

  lemma AfterGivenOut(cs: seq<Category>)
    requires After(cs).Some?
    ensures GivenOut(After(cs).value)
  {
    RegisteredInOrder(cs);
  }

  lemma GrowthEncodes(r: Registry, s: Registry, e: ErrorCode)
    requires Grows(r, s) && (e.category == HResultCategory || e.category in r.facilities)
    ensures Encode(s, e) == Encode(r, e)
  {
  }

  /** A code carried after growth and not before was an HRESULT of its own until then. */
  lemma NewlyCarried(r: Registry, s: Registry, h: Word)
    requires Carries(s, h) && !Carries(r, h)
    ensures Decode(s, h) != Decode(r, h)
  {
    CustomerNotCode(h);
  }

  lemma GrowthDecodes(r: Registry, s: Registry, h: Word)
    requires Grows(r, s) && GivenOut(r) && GivenOut(s)
    ensures Decode(s, h) == Decode(r, h) <==> !(HasCustomerBit(h) && r.next <= FacilityOf(h) < s.next)
  {
    assert Carries(r, h) <==> HasCustomerBit(h) && FacilityOf(h) < r.next;
    assert Carries(s, h) <==> HasCustomerBit(h) && FacilityOf(h) < s.next;
    if Carries(s, h) && !Carries(r, h) { NewlyCarried(r, s, h); }
  }

  /**
    Later registrations change nothing about a code that was encoded or carried before.  The
    one HRESULT whose meaning changes has the customer bit and a facility handed out since.
    */
  lemma RegistrationsKeepCodes(cs: seq<Category>, ds: seq<Category>, e: ErrorCode, h: Word)
    requires After(cs + ds).Some?
    ensures After(cs).Some?
    ensures var r, s := After(cs).value, After(cs + ds).value;
            && (e.category == HResultCategory || e.category in r.facilities ==> Encode(s, e) == Encode(r, e))
            && (Decode(s, h) == Decode(r, h)
                <==> !(HasCustomerBit(h) && r.next <= FacilityOf(h) < s.next))
  {
    RegistrationsGrow(cs, ds);
    AfterGivenOut(cs);
    AfterGivenOut(cs + ds);
    var r, s := After(cs).value, After(cs + ds).value;
    if e.category == HResultCategory || e.category in r.facilities { GrowthEncodes(r, s, e); }
    GrowthDecodes(r, s, h);
  }

  // --- the classes ---------------------------------------------------------------------------------

  class UnorderedBimap<TLeft(==), TRight(==)> {
    var leftToRight: map<TLeft, TRight>
    var rightToLeft: map<TRight, TLeft>

    constructor ()
      ensures leftToRight == map[] && rightToLeft == map[]
    {
      leftToRight := map[];
      rightToLeft := map[];
    }

    /** Each map is extended on its own, and neither overwrites. */
    method Emplace(left: TLeft, right: TRight)
      modifies this
      ensures leftToRight == Emplaced(old(leftToRight), left, right)
      ensures rightToLeft == Emplaced(old(rightToLeft), right, left)
    {
      if left !in leftToRight { leftToRight := leftToRight[left := right]; }
      if right !in rightToLeft { rightToLeft := rightToLeft[right := left]; }
    }
  }

  class CategoryStorage {
    const bimap: UnorderedBimap<Category, nat>
    var categoryFacility: nat

    ghost function View(): Registry
      reads this, bimap
    {
      Registry(bimap.leftToRight, bimap.rightToLeft, categoryFacility)
    }

    constructor ()
      ensures fresh(bimap) && Some(View()) == After([])
    {
      bimap := new UnorderedBimap<Category, nat>();
      categoryFacility := 0;
      new;
      AddCategory(Generic);
      AddCategory(Iostream);
      AddCategory(Future);
      AddCategory(System);
      assert BUILT_IN + [] == [Generic, Iostream, Future, System];
    }

    /** The counter moves on even when the category is already there. */
    method AddCategory(category: Category)
      requires categoryFacility < LAST_FACILITY
      modifies this, bimap
      ensures View() == Added(old(View()), category)
    {
      bimap.Emplace(category, categoryFacility);
      categoryFacility := categoryFacility + 1;
    }

    method GetFacility(category: Category) returns (facility: Option<nat>)
      ensures facility.Some? <==> category in View().facilities
      ensures facility.Some? ==> facility.value == View().facilities[category]
    {
      facility := if category in bimap.leftToRight then Some(bimap.leftToRight[category]) else None;
    }

    method GetCategory(facility: nat) returns (category: Option<Category>)
      ensures category.Some? <==> facility in View().categories
      ensures category.Some? ==> category.value == View().categories[facility]
    {
      category := if facility in bimap.rightToLeft then Some(bimap.rightToLeft[facility]) else None;
    }

    method GetCategoryFromHresult(hresult: Word) returns (category: Option<Category>)
      ensures category.Some? <==> Carries(View(), hresult)
      ensures category.Some? ==> category.value == View().categories[FacilityOf(hresult)]
    {
      if !HasCustomerBit(hresult) {
        return None;
      }
      category := GetCategory(FacilityOf(hresult));
    }

    method ErrorCodeFromHr(hresult: Word) returns (e: ErrorCode)
      ensures e == Decode(View(), hresult)
    {
      var category := GetCategoryFromHresult(hresult);
      e := if category.Some? then ErrorCode(CodeOf(hresult), category.value) else ErrorCode(hresult, HResultCategory);
    }

    method HrFromErrorCode(e: ErrorCode) returns (hresult: Word)
      ensures hresult == Encode(View(), e)
    {
      if e.category == HResultCategory {
        return e.value;
      }
      var facility := GetFacility(e.category);
      hresult := if facility.Some? then MakeHresultCode(facility.value, e.value) else E_FAIL;
    }
  }

  /** The HRESULTs of a code of each standard category, from a storage just made. */
  method StandardHresults(v: Word) returns (generic: Word, iostream: Word, future: Word, system: Word)
    requires v <= 0xffff
    ensures generic == 0xA000_0000 + v && iostream == 0xA001_0000 + v
    ensures future == 0xA002_0000 + v && system == 0xA003_0000 + v
  {
    var storage := new CategoryStorage();
    StandardCodes([], v);
    generic := storage.HrFromErrorCode(ErrorCode(v, Generic));
    iostream := storage.HrFromErrorCode(ErrorCode(v, Iostream));
    future := storage.HrFromErrorCode(ErrorCode(v, Future));
    system := storage.HrFromErrorCode(ErrorCode(v, System));
  }
}
