/** PCI ids and PCI addresses: fixed-width fields and their hexadecimal texts. */
module Pci {
  import opened Results
  import opened Numerals
  import opened Yaml

  type uint16 = n: nat | n < 0x1_0000

  type uint8 = n: nat | n < 0x100

  // ---- ids ------------------------------------------------------------------------

  datatype PciId = PciId(vendor: uint16, device: uint16)

  const ID_KEYS := ["vendor", "device"]

  function IdSlots(id: PciId): seq<Slot>
  {
    [Slot("vendor", Some(OfText(ToHexString(id.vendor, 4, true)))),
     Slot("device", Some(OfText(ToHexString(id.device, 4, true))))]
  }

  function EmitId(id: PciId): Node { Map(Present(IdSlots(id))) }

  /** A text field read by stoul and cut down to 16 bits. */
  function LoadShort(n: Node, key: string): Result<uint16> {
    var field :- Required(n, key);
    var text :- AsText(field);
    var v :- Stoul(text, 0);
    Ok(v % 0x1_0000)
  }

  function LoadId(n: Node): Result<PciId> {
    var vendor :- LoadShort(n, "vendor");
    var device :- LoadShort(n, "device");
    Ok(PciId(vendor, device))
  }

  /** The number that the text under a key starts with, in the base its prefix tells, cut down to 16 bits. */
  function ShortAt(n: Node, key: string): Option<uint16> {
    match At(n, key)
    case Some(Scalar(text)) => (match Stoul(text, 0) case Ok(v) => Some(v % 0x1_0000) case Threw => None)
    case _ => None
  }

  function IdText(id: PciId): string {
    ToHexString(id.vendor, 4, false) + ":" + ToHexString(id.device, 4, false)
  }

  class PciIdObject {
    var vendor: uint16
    var device: uint16

    constructor (id: PciId)
      ensures Id() == id
    {
      vendor, device := id.vendor, id.device;
    }

    function Id(): PciId
      reads this
    {
      PciId(vendor, device)
    }

    method Emit() returns (node: Node)
      ensures node == EmitId(Id())
    {
      node := Map([Entry("vendor", OfText(ToHexString(vendor, 4, true))),
                   Entry("device", OfText(ToHexString(device, 4, true)))]);
      PresentOne(IdSlots(Id())[1]);
    }

    method Load(node: Node) returns (r: Result<()>)
      modifies this
      ensures r.Ok? <==> ShortAt(node, "vendor").Some? && ShortAt(node, "device").Some?
      ensures r.Ok? ==> Some(vendor) == ShortAt(node, "vendor") && Some(device) == ShortAt(node, "device")
      ensures forall id | node == EmitId(id) :: r.Ok? && Id() == id
      ensures r.Ok? <==> LoadId(node).Ok?
      ensures r.Ok? ==> Id() == LoadId(node).value
    {
      forall id | node == EmitId(id)
        ensures LoadId(node) == Ok(id)
      {
        IdRoundTrip(id);
      }
      vendor :- LoadShort(node, "vendor");
      device :- LoadShort(node, "device");
      return Ok(());
    }
  }

  /** Every pair of 16-bit numbers is read back from the node it is written to. */
  lemma IdRoundTrip(id: PciId)
    ensures LoadId(EmitId(id)) == Ok(id)
  {
    DistinctByKeys(IdSlots(id), ID_KEYS);
    FindAll(IdSlots(id));
    ShortRoundTrip(EmitId(id), IdSlots(id)[0].key, id.vendor);
    ShortRoundTrip(EmitId(id), IdSlots(id)[1].key, id.device);
  }

  lemma ShortRoundTrip(n: Node, key: string, v: uint16)
    requires n.Map? && Find(n.entries, key) == Some(OfText(ToHexString(v, 4, true)))
    ensures LoadShort(n, key) == Ok(v)
  {
    HexRoundTrip(v, 4);
    LoadShortReads(n, key, ToHexString(v, 4, true), v);
  }

  lemma LoadShortReads(n: Node, key: string, text: string, v: uint16)
    requires n.Map? && Find(n.entries, key) == Some(Scalar(text)) && Stoul(text, 0) == Ok(v)
    ensures LoadShort(n, key) == Ok(v)
  {
  }

  lemma {:induction false} PowerGrows(base: nat, j: nat, k: nat)
    requires base > 0 && j <= k
    ensures 0 < Power(base, j) <= Power(base, k)
  {
    if k == 0 {
    } else if j < k {
      PowerGrows(base, j, k - 1);
      PowerStep(base, k - 1);
      TimesGrows(base, Power(base, k - 1));
    } else {
      PowerGrows(base, j - 1, j - 1);
      PowerStep(base, j - 1);
      TimesGrows(base, Power(base, j - 1));
    }
  }

  lemma TimesGrows(base: nat, n: nat)
    requires base > 0
    ensures n <= base * n
  {
  }

  /** A 16-bit number fills four hexadecimal digits exactly. */
  lemma FourDigits(n: uint16)
    ensures |ToHexString(n, 4, false)| == 4
  {
    DigitsAreFew(n, 16);
    var k := |Digits(n, 16)|;
    assert Power(16, 4) == 0x1_0000 by {
      assert Power(16, 2) == 0x100;
    }
    if k > 4 {
      PowerGrows(16, 4, k - 1);
    }
  }

  /** What an id is written as: two prefixed texts of four digits each. */
  lemma IdIsWritten(id: PciId)
    ensures At(EmitId(id), "vendor") == Some(Scalar("0x" + ToHexString(id.vendor, 4, false)))
    ensures At(EmitId(id), "device") == Some(Scalar("0x" + ToHexString(id.device, 4, false)))
  {
    HexRoundTrip(id.vendor, 4);
    HexRoundTrip(id.device, 4);
    DistinctByKeys(IdSlots(id), ID_KEYS);
    FindAll(IdSlots(id));
    assert IdSlots(id)[0].key == "vendor" && IdSlots(id)[1].key == "device";
  }

  /** The text of an id: vendor, colon, device, in four digits each. */
  lemma IdTextHolds(id: PciId)
    ensures |IdText(id)| == 9 && IdText(id)[4] == ':'
    ensures Writes(IdText(id)[..4], id.vendor) && Writes(IdText(id)[5..], id.device)
  {
    FourDigits(id.vendor);
    FourDigits(id.device);
    CanonicalField(id.vendor, 4);
    CanonicalField(id.device, 4);
    assert IdText(id)[..4] == ToHexString(id.vendor, 4, false);
    assert IdText(id)[5..] == ToHexString(id.device, 4, false);
  }

  /** Different ids have different texts. */
  lemma IdTextIsInjective(a: PciId, b: PciId)
    requires IdText(a) == IdText(b)
    ensures a == b
  {
    FourDigits(a.vendor);
    FourDigits(b.vendor);
    assert ToHexString(a.vendor, 4, false) == IdText(a)[..4] == IdText(b)[..4] == ToHexString(b.vendor, 4, false);
    assert ToHexString(a.device, 4, false) == IdText(a)[5..] == IdText(b)[5..] == ToHexString(b.device, 4, false);
    HexRoundTrip(a.vendor, 4);
    HexRoundTrip(b.vendor, 4);
    HexRoundTrip(a.device, 4);
    HexRoundTrip(b.device, 4);
  }

  // ---- addresses --------------------------------------------------------------------

  datatype PciAddr = PciAddr(domain: uint16, bus: uint8, device: uint8, funct: uint8)

  function CountOf(s: string, c: char): nat {
    if s == "" then 0 else (if s[0] == c then 1 else 0) + CountOf(s[1..], c)
  }

  /** find */
  function IndexOf(s: string, c: char): (i: Option<nat>)
    ensures i.Some? ==> i.value < |s| && s[i.value] == c && c !in s[..i.value]
    ensures i.None? ==> c !in s
  {
    if s == "" then None
    else if s[0] == c then Some(0)
    else
      match IndexOf(s[1..], c)
      case None => None
      case Some(i) =>
        assert s[..i + 1] == [s[0]] + s[1..][..i];
        Some(i + 1)
  }

  /** substr(0, find(c)): all of it when c does not occur. */
  function Before(s: string, c: char): string {
    match IndexOf(s, c) case Some(i) => s[..i] case None => s
  }

  /** erase(0, find(c) + 1): when c does not occur find(c) + 1 wraps to 0, and nothing is erased. */
  function Behind(s: string, c: char): string {
    match IndexOf(s, c) case Some(i) => s[i + 1..] case None => s
  }

  /** bus:device.function, after the domain has been dealt with. */
  function ParseBusPart(domain: uint16, s: string): Result<PciAddr> {
    var bus :- Stoul(Before(s, ':'), 16);
    var t := Behind(s, ':');
    var device :- Stoul(Before(t, '.'), 16);
    var funct :- Stoul(Behind(t, '.'), 16);
    Ok(PciAddr(domain, bus % 0x100, device % 0x100, funct % 0x100))
  }

  function ParseAddr(text: string): Result<PciAddr> {
    match CountOf(text, ':')
    case 1 => ParseBusPart(0, text)
    case 2 =>
      var domain :- Stoul(Before(text, ':'), 16);
      ParseBusPart(domain % 0x1_0000, Behind(text, ':'))
    case _ => Threw
  }

  function LoadAddr(n: Node): Result<PciAddr> {
    var field :- Required(n, "pci-addr");
    var text :- AsText(field);
    ParseAddr(text)
  }

  /** The node holds the canonical text of an address, which may be short when the domain is 0. */
  predicate IsWritten(n: Node, a: PciAddr) {
    match At(n, "pci-addr")
    case Some(Scalar(text)) => text == CanonicalAddr(a) || (text == ShortAddr(a) && a.domain == 0)
    case _ => false
  }

  lemma WrittenLoads(n: Node)
    ensures forall a | IsWritten(n, a) :: LoadAddr(n) == Ok(a)
  {
    forall a | IsWritten(n, a)
      ensures LoadAddr(n) == Ok(a)
    {
      WrittenParses(At(n, "pci-addr").value.text, a);
      TextLoads(n, At(n, "pci-addr").value.text, a);
    }
  }

  lemma WrittenParses(text: string, a: PciAddr)
    requires text == CanonicalAddr(a) || (text == ShortAddr(a) && a.domain == 0)
    ensures ParseAddr(text) == Ok(a)
  {
    AddrRoundTrip(a);
    assert a.domain == 0 ==> a.(domain := 0) == a;
  }

  lemma TextLoads(n: Node, text: string, a: PciAddr)
    requires At(n, "pci-addr") == Some(OfText(text)) && ParseAddr(text) == Ok(a)
    ensures LoadAddr(n) == Ok(a)
  {
  }

  class PciAddrObject {
    var domain: uint16
    var bus: uint8
    var device: uint8
    var funct: uint8

    constructor (a: PciAddr)
      ensures Addr() == a
    {
      domain, bus, device, funct := a.domain, a.bus, a.device, a.funct;
    }

    function Addr(): PciAddr
      reads this
    {
      PciAddr(domain, bus, device, funct)
    }

    method Load(node: Node) returns (r: Result<()>)
      modifies this
      // A canonical text is read back, and without its domain it gives domain 0.
      ensures forall a | IsWritten(node, a) :: r.Ok? && Addr() == a
      ensures r.Ok? <==> LoadAddr(node).Ok?
      ensures r.Ok? ==> Addr() == LoadAddr(node).value
    {
      WrittenLoads(node);
      r := LoadText(node);
    }

    /** The counting, cutting and erasing. */
    method LoadText(node: Node) returns (r: Result<()>)
      modifies this
      ensures r.Ok? <==> LoadAddr(node).Ok?
      ensures r.Ok? ==> Addr() == LoadAddr(node).value
    {
      var field :- Required(node, "pci-addr");
      var pciStr :- AsText(field);
      var colons := CountOf(pciStr, ':');
      if colons == 1 {
        domain := 0;
      } else if colons == 2 {
        var v :- Stoul(Before(pciStr, ':'), 16);
        domain := v % 0x1_0000;
        pciStr := Behind(pciStr, ':');
      } else {
        return Threw;
      }
      var b :- Stoul(Before(pciStr, ':'), 16);
      bus := b % 0x100;
      pciStr := Behind(pciStr, ':');
      var d :- Stoul(Before(pciStr, '.'), 16);
      device := d % 0x100;
      pciStr := Behind(pciStr, '.');
      var f :- Stoul(pciStr, 16);
      funct := f % 0x100;
      return Ok(());
    }
  }

  /** str: the device stands in the place of the domain, and a dot in the place of the colon before it. */
  function AddrText(a: PciAddr): string {
    ToHexString(a.device, 4, false) + ":" + ToHexString(a.bus, 2, false) + "." +
    ToHexString(a.device, 2, false) + "." + ToHexString(a.funct, 1, false)
  }

  function EmitAddr(a: PciAddr): Node { Map([Entry("addr", OfText(AddrText(a)))]) }

  /** No address is read back from the node it is written to: the keys differ. */
  lemma EmittedAddrNeverLoads(a: PciAddr)
    ensures LoadAddr(EmitAddr(a)).Threw?
  {
    assert Find(EmitAddr(a).entries[1..], "pci-addr").None?;
  }

  /** The text of an address holds the device twice, bus and function once each, and no domain. */
  lemma AddrTextHolds(a: PciAddr) returns (d: string, b: string, e: string, f: string)
    ensures At(EmitAddr(a), "addr") == Some(Scalar(AddrText(a)))
    ensures AddrText(a) == d + ":" + b + "." + e + "." + f
    ensures Writes(d, a.device) && Writes(b, a.bus) && Writes(e, a.device) && Writes(f, a.funct)
    ensures |d| >= 4 && |b| >= 2 && |e| >= 2
  {
    d, b := ToHexString(a.device, 4, false), ToHexString(a.bus, 2, false);
    e, f := ToHexString(a.device, 2, false), ToHexString(a.funct, 1, false);
    CanonicalField(a.device, 4);
    CanonicalField(a.bus, 2);
    CanonicalField(a.device, 2);
    CanonicalField(a.funct, 1);
    PaddedDigits(a.device, 4);
    PaddedDigits(a.bus, 2);
    PaddedDigits(a.device, 2);
  }

  /** Only texts with one or two colons are addresses. */
  lemma ColonsDecide(text: string)
    requires ParseAddr(text).Ok?
    ensures CountOf(text, ':') == 1 || CountOf(text, ':') == 2
    ensures CountOf(text, ':') == 1 ==> ParseAddr(text).value.domain == 0
  {
  }

  lemma {:induction false} CountAppend(a: string, b: string, c: char)
    ensures CountOf(a + b, c) == CountOf(a, c) + CountOf(b, c)
  {
    if a == "" {
      assert a + b == b;
    } else {
      assert (a + b)[1..] == a[1..] + b;
      CountAppend(a[1..], b, c);
    }
  }

  lemma {:induction false} CountAbsent(s: string, c: char)
    requires c !in s
    ensures CountOf(s, c) == 0
  {
    if s == "" {
    } else {
      CountAbsent(s[1..], c);
    }
  }

  /** Cutting at the first separator. */
  lemma {:induction false} CutAt(a: string, c: char, b: string)
    requires c !in a
    ensures Before(a + [c] + b, c) == a && Behind(a + [c] + b, c) == b
    ensures IndexOf(a + [c] + b, c) == Some(|a|)
  {
    var s := a + [c] + b;
    assert s[..|a|] == a && s[|a| + 1..] == b;
    if a == "" {
    } else {
      assert a[0] in a;
      assert s[1..] == a[1..] + [c] + b;
      CutAt(a[1..], c, b);
    }
  }

  lemma CountJoined(a: string, b: string)
    requires CountOf(a, ':') == 0
    ensures CountOf(a + [':'] + b, ':') == 1 + CountOf(b, ':')
  {
    CountAppend(a + [':'], b, ':');
    CountAppend(a, [':'], ':');
    assert CountOf([':'], ':') == 1 + CountOf([':'][1..], ':');
  }

  predicate HexText(s: string) { s != "" && AllDigits(s, 16) && Value(s, 16) < ULONG_RANGE }

  lemma HexTextReads(s: string)
    requires HexText(s)
    ensures Stoul(s, 16) == Ok(Value(s, 16)) && ':' !in s && '.' !in s && CountOf(s, ':') == 0
  {
    assert s + "" == s;
    ReadHexDigits(s, "");
    CountAbsent(s, ':');
  }

  /** Bus and device are read from their own places, and the function from what is behind the dot. */
  lemma BusPartReads(domain: uint16, b: string, d: string, rest: string, funct: nat)
    requires HexText(b) && HexText(d) && ':' !in rest && Stoul(rest, 16) == Ok(funct)
    ensures var text := b + [':'] + (d + ['.'] + rest);
            && CountOf(text, ':') == 1
            && ParseBusPart(domain, text) ==
               Ok(PciAddr(domain, Value(b, 16) % 0x100, Value(d, 16) % 0x100, funct % 0x100))
  {
    HexTextReads(b);
    HexTextReads(d);
    var tail := d + ['.'] + rest;
    CountAbsent(tail, ':');
    CountJoined(b, tail);
    CutAt(b, ':', tail);
    CutAt(d, '.', rest);
  }

  lemma BusPartParses(domain: uint16, b: string, d: string, f: string)
    requires HexText(b) && HexText(d) && HexText(f)
    ensures var text := b + [':'] + (d + ['.'] + f);
            && CountOf(text, ':') == 1
            && ParseBusPart(domain, text) ==
               Ok(PciAddr(domain, Value(b, 16) % 0x100, Value(d, 16) % 0x100, Value(f, 16) % 0x100))
  {
    HexTextReads(f);
    BusPartReads(domain, b, d, f, Value(f, 16));
  }

  /** With or without a domain, and whatever the widths of the fields: each field is read from its own place. */
  lemma AddrParses(a: string, b: string, d: string, f: string, read: PciAddr)
    requires HexText(a) && HexText(b) && HexText(d) && HexText(f)
    requires read == PciAddr(Value(a, 16) % 0x1_0000, Value(b, 16) % 0x100, Value(d, 16) % 0x100, Value(f, 16) % 0x100)
    ensures ParseAddr(b + [':'] + (d + ['.'] + f)) == Ok(read.(domain := 0))
    ensures ParseAddr(a + [':'] + (b + [':'] + (d + ['.'] + f))) == Ok(read)
  {
    BusPartParses(0, b, d, f);
    BusPartParses(read.domain, b, d, f);
    DomainParses(a, b + [':'] + (d + ['.'] + f));
  }

  /** The number of colons decides whether a domain is read first. */
  lemma DomainParses(a: string, short: string)
    requires HexText(a) && CountOf(short, ':') == 1
    ensures ParseAddr(short) == ParseBusPart(0, short)
    ensures ParseAddr(a + [':'] + short) == ParseBusPart(Value(a, 16) % 0x1_0000, short)
  {
    HexTextReads(a);
    CountJoined(a, short);
    CutAt(a, ':', short);
  }

  lemma BehindKeepsOut(s: string, c: char, other: char)
    requires other !in s
    ensures other !in Behind(s, c)
  {
  }

  lemma DotlessBusPart(domain: uint16, s: string)
    requires '.' !in s && ParseBusPart(domain, s).Ok?
    ensures ParseBusPart(domain, s).value.device == ParseBusPart(domain, s).value.funct
  {
    BehindKeepsOut(s, ':', '.');
    assert IndexOf(Behind(s, ':'), '.').None?;
  }

  /** Without a dot, whatever else the text holds, what is behind the bus is read twice: device and function agree. */
  lemma WithoutDotDeviceIsFunction(text: string)
    requires '.' !in text && ParseAddr(text).Ok?
    ensures ParseAddr(text).value.device == ParseAddr(text).value.funct
  {
    BehindKeepsOut(text, ':', '.');
    if CountOf(text, ':') == 1 {
      DotlessBusPart(0, text);
    } else {
      DotlessBusPart(ParseAddr(text).value.domain, Behind(text, ':'));
    }
  }

  lemma DotlessAddrParses(b: string, d: string)
    requires HexText(b) && HexText(d)
    ensures ParseAddr(b + [':'] + d) == Ok(PciAddr(0, Value(b, 16) % 0x100, Value(d, 16) % 0x100, Value(d, 16) % 0x100))
  {
    HexTextReads(b);
    HexTextReads(d);
    CountJoined(b, d);
    CutAt(b, ':', d);
  }

  /** domain:bus:device.function in zero-padded hexadecimal digits. */
  function CanonicalAddr(a: PciAddr): string {
    ToHexString(a.domain, 4, false) + [':'] + ShortAddr(a)
  }

  function ShortAddr(a: PciAddr): string {
    ToHexString(a.bus, 2, false) + [':'] + (ToHexString(a.device, 2, false) + ['.'] + ToHexString(a.funct, 1, false))
  }

  /** s is a text of n. */
  predicate Writes(s: string, n: nat) { HexText(s) && Value(s, 16) == n }

  lemma CanonicalField(n: nat, width: nat)
    requires n < ULONG_RANGE
    ensures Writes(ToHexString(n, width, false), n)
  {
    PaddedDigits(n, width);
    assert ToHexString(n, width, false) == Pad(Digits(n, 16), width);
  }

  lemma WrittenFields(a: PciAddr, dom: string, bus: string, dev: string, fun: string)
    requires Writes(dom, a.domain) && Writes(bus, a.bus) && Writes(dev, a.device) && Writes(fun, a.funct)
    ensures a == PciAddr(Value(dom, 16) % 0x1_0000, Value(bus, 16) % 0x100,
                         Value(dev, 16) % 0x100, Value(fun, 16) % 0x100)
  {
    Uncut(dom, a.domain, 0x1_0000);
    Uncut(bus, a.bus, 0x100);
    Uncut(dev, a.device, 0x100);
    Uncut(fun, a.funct, 0x100);
  }

  /** A number in range is not cut. */
  lemma Uncut(s: string, n: nat, limit: nat)
    requires Writes(s, n) && n < limit
    ensures Value(s, 16) % limit == n
  {
    SmallRest(Value(s, 16), n, limit);
  }

  lemma SmallRest(v: nat, n: nat, limit: nat)
    requires v == n < limit
    ensures v % limit == n
  {
  }

  lemma WrittenAddrParses(a: PciAddr, dom: string, bus: string, dev: string, fun: string)
    requires Writes(dom, a.domain) && Writes(bus, a.bus) && Writes(dev, a.device) && Writes(fun, a.funct)
    ensures ParseAddr(bus + [':'] + (dev + ['.'] + fun)) == Ok(a.(domain := 0))
    ensures ParseAddr(dom + [':'] + (bus + [':'] + (dev + ['.'] + fun))) == Ok(a)
  {
    WrittenFields(a, dom, bus, dev, fun);
    AddrParses(dom, bus, dev, fun, a);
  }

  /** load inverts the canonical text on all field values, and reads domain 0 where there is none. */
  lemma AddrRoundTrip(a: PciAddr)
    ensures ParseAddr(CanonicalAddr(a)) == Ok(a)
    ensures ParseAddr(ShortAddr(a)) == Ok(a.(domain := 0))
  {
    CanonicalField(a.domain, 4);
    CanonicalField(a.bus, 2);
    CanonicalField(a.device, 2);
    CanonicalField(a.funct, 1);
    WrittenAddrParses(a, ToHexString(a.domain, 4, false), ToHexString(a.bus, 2, false),
                      ToHexString(a.device, 2, false), ToHexString(a.funct, 1, false));
  }

  // ---- the text that emit writes ----------------------------------------------------------

  /** A number that ends at the first dot of the text. */
  lemma NumberBeforeDot(d: string, rest: string)
    requires HexText(d)
    ensures Stoul(d + (['.'] + rest), 16) == Ok(Value(d, 16))
  {
    ReadHexDigits(d, ['.'] + rest);
  }

  lemma ShiftedFields(d: string, b: string, e: string, f: string, read: PciAddr)
    requires HexText(d) && HexText(b) && HexText(e) && HexText(f)
    requires read == PciAddr(0, Value(d, 16) % 0x100, Value(b, 16) % 0x100, Value(e, 16) % 0x100)
    ensures ParseAddr(d + [':'] + (b + ['.'] + (e + (['.'] + f)))) == Ok(read)
  {
    HexTextReads(e);
    HexTextReads(f);
    NumberBeforeDot(e, f);
    BusPartReads(0, d, b, e + (['.'] + f), Value(e, 16));
  }

  lemma AddrTextParts(d: string, b: string, e: string, f: string)
    ensures d + ":" + b + "." + e + "." + f == d + [':'] + (b + ['.'] + (e + (['.'] + f)))
  {
  }

  /** Even under the right key the fields would come back shifted, since str puts the device first. */
  lemma WrittenAddrShifts(a: PciAddr)
    ensures ParseAddr(AddrText(a)) == Ok(PciAddr(0, a.device, a.bus, a.device))
  {
    var d, b := ToHexString(a.device, 4, false), ToHexString(a.bus, 2, false);
    var e, f := ToHexString(a.device, 2, false), ToHexString(a.funct, 1, false);
    CanonicalField(a.device, 4);
    CanonicalField(a.bus, 2);
    CanonicalField(a.device, 2);
    CanonicalField(a.funct, 1);
    AddrTextParts(d, b, e, f);
    Uncut(d, a.device, 0x100);
    Uncut(b, a.bus, 0x100);
    Uncut(e, a.device, 0x100);
    ShiftedFields(d, b, e, f, PciAddr(0, a.device, a.bus, a.device));
  }

  /** So the text alone determines the address exactly when all fields behind an absent domain are equal. */
  lemma WrittenAddrSurvivesIff(a: PciAddr)
    ensures ParseAddr(AddrText(a)) == Ok(a) <==> a.domain == 0 && a.bus == a.device == a.funct
  {
    WrittenAddrShifts(a);
  }
}
