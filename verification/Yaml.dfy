/**
 * Node trees and the conversions of yaml-cpp that the messages use. A map node keeps its entries in
 * the order they were put in. The null node reads like an empty map in all of this code, so Map([])
 * stands for both. An undefined node is an entry that is not there.
 */
module Yaml {
  import opened Results
  import opened Numerals

  datatype Node = Scalar(text: string) | List(items: seq<Node>) | Map(entries: seq<Entry>)

  datatype Entry = Entry(key: string, value: Node)

  /** The value of the first entry with this key. */
  function Find(es: seq<Entry>, key: string): Option<Node> {
    if es == [] then None
    else if es[0].key == key then Some(es[0].value)
    else Find(es[1..], key)
  }

  /** node[key] on a constant node; a scalar has no subscripts. */
  function Field(n: Node, key: string): Result<Option<Node>> {
    match n
    case Scalar(_) => Threw
    case List(_) => Ok(None)
    case Map(entries) => Ok(Find(entries, key))
  }

  /** fast::load without a fallback finds the node or throws. */
  function Required(n: Node, key: string): Result<Node> {
    match Field(n, key)
    case Ok(Some(x)) => Ok(x)
    case _ => Threw
  }

  // ---- merging ---------------------------------------------------------------------

  /** The entries of r whose keys l does not have, in order, behind those of l. */
  function Merge(l: seq<Entry>, r: seq<Entry>): seq<Entry> {
    if r == [] then l
    else
      var m := Merge(l, r[..|r| - 1]);
      var e := r[|r| - 1];
      if Find(m, e.key).None? then m + [e] else m
  }

  /** merge_node on the entries of two map nodes. */
  method MergeNode(lhs: seq<Entry>, rhs: seq<Entry>) returns (r: seq<Entry>)
    ensures r == Merge(lhs, rhs)
  {
    r := lhs;
    for i := 0 to |rhs|
      invariant r == Merge(lhs, rhs[..i])
    {
      assert rhs[..i + 1][..i] == rhs[..i];
      var key := rhs[i].key;
      if Find(r, key).None? {
        FirstOccurrence(lhs, rhs, i);
        r := r + [Entry(key, Find(rhs, key).value)];
      }
    }
    assert rhs[..|rhs|] == rhs;
  }

  lemma {:induction false} FindAppend(a: seq<Entry>, b: seq<Entry>, key: string)
    ensures Find(a + b, key) == if Find(a, key).Some? then Find(a, key) else Find(b, key)
  {
    if a == [] {
      assert a + b == b;
    } else {
      assert (a + b)[1..] == a[1..] + b;
      FindAppend(a[1..], b, key);
    }
  }

  /** The value under a key is that of the first entry with the key, and there is none without such an entry. */
  lemma {:induction false} FindIsFirst(es: seq<Entry>, key: string)
    ensures Find(es, key).None? <==> forall e | e in es :: e.key != key
    ensures forall i | 0 <= i < |es| && es[i].key == key && (forall j | 0 <= j < i :: es[j].key != key) ::
              Find(es, key) == Some(es[i].value)
  {
    if es == [] {
    } else {
      FindIsFirst(es[1..], key);
      assert es == [es[0]] + es[1..];
      forall i | 0 < i < |es| && es[i].key == key && (forall j | 0 <= j < i :: es[j].key != key)
        ensures Find(es, key) == Some(es[i].value)
      {
        assert es[1..][i - 1] == es[i] && forall j | 0 <= j < i - 1 :: es[1..][j] == es[j + 1];
      }
    }
  }

  /** Merging is a left-biased union. */
  lemma {:induction false} MergeIsLeftBiased(l: seq<Entry>, r: seq<Entry>, key: string)
    ensures Find(Merge(l, r), key) == if Find(l, key).Some? then Find(l, key) else Find(r, key)
  {
    if r == [] {
    } else {
      var r', e := r[..|r| - 1], r[|r| - 1];
      MergeIsLeftBiased(l, r', key);
      assert r == r' + [e];
      FindAppend(r', [e], key);
      FindAppend(Merge(l, r'), [e], key);
    }
  }

  /** What is missing after i entries was not among them, so rhs[key] is entry i itself. */
  lemma FirstOccurrence(l: seq<Entry>, r: seq<Entry>, i: nat)
    requires i < |r| && Find(Merge(l, r[..i]), r[i].key).None?
    ensures Find(r, r[i].key) == Some(r[i].value)
  {
    MergeIsLeftBiased(l, r[..i], r[i].key);
    assert r == r[..i] + r[i..];
    FindAppend(r[..i], r[i..], r[i].key);
    assert r[i..][0] == r[i];
  }

  // ---- field tables ------------------------------------------------------------------

  /** A key with the node to put there, if there is one. */
  datatype Slot = Slot(key: string, node: Option<Node>)

  function Present(slots: seq<Slot>): seq<Entry> {
    if slots == [] then []
    else (if slots[0].node.Some? then [Entry(slots[0].key, slots[0].node.value)] else []) + Present(slots[1..])
  }

  predicate HasKey(slots: seq<Slot>, key: string) {
    slots != [] && (slots[0].key == key || HasKey(slots[1..], key))
  }

  predicate DistinctKeys(slots: seq<Slot>) {
    slots == [] || (!HasKey(slots[1..], slots[0].key) && DistinctKeys(slots[1..]))
  }

  predicate Distinct(keys: seq<string>) { forall i, j | 0 <= i < j < |keys| :: keys[i] != keys[j] }

  predicate KeysOf(slots: seq<Slot>, keys: seq<string>) {
    |slots| == |keys| && forall i | 0 <= i < |keys| :: slots[i].key == keys[i]
  }

  lemma {:induction false} HasKeyAt(slots: seq<Slot>, key: string)
    ensures HasKey(slots, key) <==> exists i :: 0 <= i < |slots| && slots[i].key == key
  {
    if slots == [] {
    } else {
      HasKeyAt(slots[1..], key);
      if HasKey(slots[1..], key) {
        var i :| 0 <= i < |slots| - 1 && slots[1..][i].key == key;
        assert slots[i + 1].key == key;
      } else {
        assert forall i | 1 <= i < |slots| :: slots[i] == slots[1..][i - 1];
      }
    }
  }

  lemma {:induction false} DistinctByKeys(slots: seq<Slot>, keys: seq<string>)
    requires KeysOf(slots, keys) && Distinct(keys)
    ensures DistinctKeys(slots)
  {
    if slots == [] {
    } else {
      DistinctByKeys(slots[1..], keys[1..]);
      HasKeyAt(slots[1..], slots[0].key);
    }
  }

  lemma {:induction false} DistinctKeysAt(slots: seq<Slot>, i: nat, j: nat)
    requires DistinctKeys(slots) && i < j < |slots|
    ensures slots[i].key != slots[j].key
  {
    if i == 0 {
      HasKeyAt(slots[1..], slots[0].key);
      assert slots[1..][j - 1] == slots[j];
    } else {
      DistinctKeysAt(slots[1..], i - 1, j - 1);
    }
  }

  lemma {:induction false} FindAbsent(slots: seq<Slot>, key: string)
    requires forall i | 0 <= i < |slots| :: slots[i].key != key
    ensures Find(Present(slots), key) == None
  {
    if slots == [] {
    } else {
      FindAbsent(slots[1..], key);
      PresentFirst(slots, key);
    }
  }

  /** The first slot answers for its own key only. */
  lemma PresentFirst(slots: seq<Slot>, key: string)
    requires slots != []
    ensures Find(Present(slots), key) ==
            if slots[0].key == key && slots[0].node.Some? then slots[0].node else Find(Present(slots[1..]), key)
  {
    var rest := Present(slots[1..]);
    if slots[0].node.Some? {
      assert (([Entry(slots[0].key, slots[0].node.value)]) + rest)[1..] == rest;
    } else {
      assert [] + rest == rest;
    }
  }

  /** In a table of distinct keys every key finds its own node. */
  lemma {:induction false} FindPresent(slots: seq<Slot>, i: nat)
    requires DistinctKeys(slots) && i < |slots|
    ensures Find(Present(slots), slots[i].key) == slots[i].node
  {
    PresentFirst(slots, slots[i].key);
    HasKeyAt(slots[1..], slots[0].key);
    if i == 0 {
      FindAbsent(slots[1..], slots[0].key);
    } else {
      assert slots[1..][i - 1] == slots[i];
      FindPresent(slots[1..], i - 1);
    }
  }

  lemma FindAll(slots: seq<Slot>)
    requires DistinctKeys(slots)
    ensures forall i | 0 <= i < |slots| :: Find(Present(slots), slots[i].key) == slots[i].node
  {
    forall i | 0 <= i < |slots|
      ensures Find(Present(slots), slots[i].key) == slots[i].node
    {
      FindPresent(slots, i);
    }
  }

  lemma {:induction false} PresentAppend(a: seq<Slot>, b: seq<Slot>)
    ensures Present(a + b) == Present(a) + Present(b)
  {
    if a == [] {
      assert a + b == b;
    } else {
      assert (a + b)[1..] == a[1..] + b && (a + b)[0] == a[0];
      PresentAppend(a[1..], b);
      PresentStep(a);
      PresentStep(a + b);
    }
  }

  lemma PresentStep(slots: seq<Slot>)
    requires slots != []
    ensures Present(slots) == Present([slots[0]]) + Present(slots[1..])
  {
    PresentOne(slots[0]);
  }

  lemma PresentOne(slot: Slot)
    ensures Present([slot]) == if slot.node.Some? then [Entry(slot.key, slot.node.value)] else []
  {
    assert Present([slot][1..]) == [];
  }

  lemma MergeOne(l: seq<Entry>, e: Entry)
    ensures Merge(l, [e]) == if Find(l, e.key).None? then l + [e] else l
  {
    assert [e][..0] == [];
    assert Merge(l, [e][..0]) == l;
  }

  /** Merging one more optional field with a new key extends the table. */
  lemma MergeSlot(slots: seq<Slot>, more: Slot)
    requires forall i | 0 <= i < |slots| :: slots[i].key != more.key
    ensures Merge(Present(slots), Present([more])) == Present(slots + [more])
  {
    FindAbsent(slots, more.key);
    PresentAppend(slots, [more]);
    PresentOne(more);
    if more.node.Some? {
      MergeOne(Present(slots), Entry(more.key, more.node.value));
    }
  }

  lemma MergeNext(slots: seq<Slot>, k: nat)
    requires DistinctKeys(slots) && k < |slots|
    ensures Merge(Present(slots[..k]), Present([slots[k]])) == Present(slots[..k + 1])
  {
    forall i | 0 <= i < k
      ensures slots[..k][i].key != slots[k].key
    {
      DistinctKeysAt(slots, i, k);
    }
    MergeSlot(slots[..k], slots[k]);
    assert slots[..k + 1] == slots[..k] + [slots[k]];
  }

  /** The first k slots of a table of distinct keys have been emitted. */
  ghost predicate Built(slots: seq<Slot>, k: nat, es: seq<Entry>) {
    DistinctKeys(slots) && k <= |slots| && es == Present(slots[..k])
  }

  /** merge_node(node, o.emit()) for the field that is next in the table. */
  method MergeOptional<T>(es: seq<Entry>, o: Optional<T>, enc: T -> Node, ghost slots: seq<Slot>, ghost k: nat)
    returns (r: seq<Entry>)
    requires Built(slots, k, es) && k < |slots| && slots[k] == Slot(o.tag, MapOption(o.value, enc))
    ensures r == Merge(es, EmitOptional(o, enc)) && Built(slots, k + 1, r)
  {
    MergeNext(slots, k);
    r := MergeNode(es, EmitOptional(o, enc));
  }

  /** node[key] = value for the field that is next in the table. */
  method Put(es: seq<Entry>, key: string, value: Node, ghost slots: seq<Slot>, ghost k: nat) returns (r: seq<Entry>)
    requires Built(slots, k, es) && k < |slots| && slots[k] == Slot(key, Some(value))
    ensures r == es + [Entry(key, value)] && Built(slots, k + 1, r)
  {
    PresentAppend(slots[..k], [slots[k]]);
    PresentOne(slots[k]);
    assert slots[..k + 1] == slots[..k] + [slots[k]];
    r := es + [Entry(key, value)];
  }

  /** A field that is not emitted. */
  lemma SkipSlot(slots: seq<Slot>, k: nat, es: seq<Entry>)
    requires Built(slots, k, es) && k < |slots| && slots[k].node.None?
    ensures Built(slots, k + 1, es)
  {
    PresentAppend(slots[..k], [slots[k]]);
    PresentOne(slots[k]);
    assert slots[..k + 1] == slots[..k] + [slots[k]];
  }

  lemma {:induction false} NothingPresent(slots: seq<Slot>)
    requires Present(slots) == []
    ensures forall i | 0 <= i < |slots| :: slots[i].node == None
  {
    if slots == [] {
    } else {
      NothingPresent(slots[1..]);
      assert forall i | 1 <= i < |slots| :: slots[i] == slots[1..][i - 1];
    }
  }

  /** Every key of the table finds its node among the entries, whatever else is there. */
  ghost predicate Carries(n: Node, slots: seq<Slot>) {
    n.Map? && forall i | 0 <= i < |slots| :: Find(n.entries, slots[i].key) == slots[i].node
  }

  lemma TableCarries(slots: seq<Slot>)
    requires DistinctKeys(slots)
    ensures Carries(Map(Present(slots)), slots)
  {
    FindAll(slots);
  }

  // ---- conversions --------------------------------------------------------------------

  type uint32 = n: nat | n < 0x1_0000_0000

  type uint64 = n: nat | n < ULONG_RANGE

  function OfText(s: string): Node { Scalar(s) }

  function AsText(n: Node): Result<string> {
    if n.Scalar? then Ok(n.text) else Threw
  }

  function OfFlag(b: bool): Node { Scalar(if b then "true" else "false") }

  function Lower(c: char): char { if 'A' <= c <= 'Z' then c - 'A' + 'a' else c }

  function LowerAll(s: string): string { seq(|s|, i requires 0 <= i < |s| => Lower(s[i])) }

  /** All letters small, all capital, or only the first one capital. */
  predicate FlexibleCase(s: string) {
    || s == LowerAll(s)
    || (forall c | c in s :: !('a' <= c <= 'z'))
    || (s != "" && 'A' <= s[0] <= 'Z' && s[1..] == LowerAll(s[1..]))
  }

  function AsFlag(n: Node): Result<bool> {
    if !n.Scalar? || !FlexibleCase(n.text) then Threw
    else
      var s := LowerAll(n.text);
      if s == "y" || s == "yes" || s == "true" || s == "on" then Ok(true)
      else if s == "n" || s == "no" || s == "false" || s == "off" then Ok(false)
      else Threw
  }

  function OfNumber(n: nat): Node { Scalar(Digits(n, 10)) }

  /** The stream extractor with its base flags cleared: the whole text has to be one number in range. */
  function AsNumber(n: Node, range: nat): Result<nat> {
    if !n.Scalar? then Threw
    else
      match Read(n.text, 0)
      case NoNumber => Threw
      case Reading(negative, magnitude, rest) =>
        if SkipBlanks(rest) != "" || magnitude >= range then Threw
        else Ok(if negative then (range - magnitude) % range else magnitude)
  }

  function OfUint32(n: uint32): Node { OfNumber(n) }

  function AsUint32(n: Node): (r: Result<uint32>)
  {
    match AsNumber(n, 0x1_0000_0000)
    case Threw => Threw
    case Ok(v) => if v < 0x1_0000_0000 then Ok(v) else Threw
  }

  function OfUint64(n: uint64): Node { OfNumber(n) }

  function AsUint64(n: Node): (r: Result<uint64>)
  {
    match AsNumber(n, ULONG_RANGE)
    case Threw => Threw
    case Ok(v) => if v < ULONG_RANGE then Ok(v) else Threw
  }

  function OfAll<T>(xs: seq<T>, enc: T -> Node): (ns: seq<Node>)
    ensures |ns| == |xs| && forall i | 0 <= i < |xs| :: ns[i] == enc(xs[i])
  {
    seq(|xs|, i requires 0 <= i < |xs| => enc(xs[i]))
  }

  function AsAll<T>(ns: seq<Node>, dec: Node -> Result<T>): Result<seq<T>> {
    if ns == [] then Ok([])
    else
      var x :- dec(ns[0]);
      var xs :- AsAll(ns[1..], dec);
      Ok([x] + xs)
  }

  function OfList<T>(xs: seq<T>, enc: T -> Node): Node { List(OfAll(xs, enc)) }

  /** as<std::vector<T>>: an element that cannot be converted throws. */
  function AsList<T>(n: Node, dec: Node -> Result<T>): Result<seq<T>> {
    if n.List? then AsAll(n.items, dec) else Threw
  }

  function OfMatrix(m: seq<seq<uint32>>): Node { OfList(m, (row: seq<uint32>) => OfList(row, OfUint32)) }

  function AsMatrix(n: Node): Result<seq<seq<uint32>>> { AsList(n, (row: Node) => AsList(row, AsUint32)) }

  // ---- which texts are flags and numbers ------------------------------------------------

  /** A word in small letters, in capitals, or with a capital in front. */
  predicate Spelled(s: string, word: string) {
    |s| == |word| && FlexibleCase(s) && forall i | 0 <= i < |s| :: Lower(s[i]) == word[i]
  }

  lemma LowerIsSpelled(s: string, word: string)
    ensures FlexibleCase(s) && LowerAll(s) == word <==> Spelled(s, word)
  {
  }

  lemma OneLetter(s: string, word: string)
    requires |word| == 1 && 'a' <= word[0] <= 'z'
    ensures Spelled(s, word) <==> s == word || s == [word[0] - 'a' + 'A']
  {
    if |s| == 1 {
      assert s[0] in s && s == [s[0]];
    }
  }

  lemma CapitalOf(c: char, letter: char)
    requires 'a' <= letter <= 'z' && Lower(c) == letter && !('a' <= c <= 'z')
    ensures c == letter - 'a' + 'A'
  {
  }

  lemma Spellings(s: string, word: string, capitals: string)
    requires |word| == |capitals| >= 2
    requires forall i | 0 <= i < |word| :: 'a' <= word[i] <= 'z' && capitals[i] == word[i] - 'a' + 'A'
    ensures Spelled(s, word) <==> s == word || s == capitals || s == [capitals[0]] + word[1..]
  {
    if Spelled(s, word) {
      if s == LowerAll(s) {
        assert s == word;
      } else if forall c | c in s :: !('a' <= c <= 'z') {
        forall i | 0 <= i < |s|
          ensures s[i] == capitals[i]
        {
          assert s[i] in s;
          CapitalOf(s[i], word[i]);
        }
        assert s == capitals;
      } else {
        assert s[1..] == LowerAll(s[1..]);
        CapitalOf(s[0], word[0]);
        assert forall i | 1 <= i < |s| :: s[i] == s[1..][i - 1] && LowerAll(s[1..])[i - 1] == Lower(s[i]);
        assert s == [capitals[0]] + word[1..];
      }
    }
    if s == word {
      assert s == LowerAll(s);
    }
    if s == capitals {
      assert forall c | c in s :: !('a' <= c <= 'z');
    }
    if s == [capitals[0]] + word[1..] {
      assert s[1..] == word[1..];
      assert s[1..] == LowerAll(s[1..]);
    }
  }

  /** The words that are flags, and no others. */
  lemma FlagWords(s: string)
    ensures AsFlag(Scalar(s)) == Ok(true) <==>
            s in ["y", "Y", "yes", "Yes", "YES", "true", "True", "TRUE", "on", "On", "ON"]
    ensures AsFlag(Scalar(s)) == Ok(false) <==>
            s in ["n", "N", "no", "No", "NO", "false", "False", "FALSE", "off", "Off", "OFF"]
  {
    TrueWords(s);
    FalseWords(s);
  }

  lemma TrueWords(s: string)
    ensures AsFlag(Scalar(s)) == Ok(true) <==>
            s in ["y", "Y", "yes", "Yes", "YES", "true", "True", "TRUE", "on", "On", "ON"]
  {
    LowerIsSpelled(s, "y");
    LowerIsSpelled(s, "yes");
    LowerIsSpelled(s, "true");
    LowerIsSpelled(s, "on");
    OneLetter(s, "y");
    Spellings(s, "yes", "YES");
    Spellings(s, "true", "TRUE");
    Spellings(s, "on", "ON");
    assert ['Y'] + "yes"[1..] == "Yes" && ['T'] + "true"[1..] == "True" && ['O'] + "on"[1..] == "On";
  }

  lemma FalseWords(s: string)
    ensures AsFlag(Scalar(s)) == Ok(false) <==>
            s in ["n", "N", "no", "No", "NO", "false", "False", "FALSE", "off", "Off", "OFF"]
  {
    LowerIsSpelled(s, "n");
    LowerIsSpelled(s, "no");
    LowerIsSpelled(s, "false");
    LowerIsSpelled(s, "off");
    OneLetter(s, "n");
    Spellings(s, "no", "NO");
    Spellings(s, "false", "FALSE");
    Spellings(s, "off", "OFF");
    assert ['N'] + "no"[1..] == "No" && ['F'] + "false"[1..] == "False" && ['O'] + "off"[1..] == "Off";
  }

  /** A number is the whole text, up to blanks behind it, and has to be in range. */
  lemma {:induction false} NumberIsWholeText(s: string, sign: string, rest: string, range: nat, n: nat)
    requires s != "" && AllDigits(s, 10) && s[0] != '0' && Value(s, 10) == n
    requires sign in ["", "+", "-"] && (rest != "" ==> DigitValue(rest[0]) >= 10) && range > 0
    ensures AsNumber(Scalar(sign + (s + rest)), range) ==
            if (forall c | c in rest :: IsBlank(c)) && n < range then
              Ok(if sign == "-" && n > 0 then range - n else n)
            else Threw
  {
    assert s[0] in s && (s + rest)[0] == s[0];
    SignIsRead(sign, s + rest);
    assert "" + (s + rest) == s + rest;
    NumberIsRead(sign + (s + rest), sign, "", s, rest, 0, 10);
    OnlyBlanks(rest);
    NumberOfReading(sign + (s + rest), range, sign == "-", n, rest);
  }

  lemma NumberOfReading(text: string, range: nat, negative: bool, n: nat, rest: string)
    requires Read(text, 0) == Reading(negative, n, rest) && range > 0
    ensures AsNumber(Scalar(text), range) ==
            if SkipBlanks(rest) == "" && n < range then Ok(if negative && n > 0 then range - n else n) else Threw
  {
    if n < range {
      WrapsAround(n, range);
    }
  }

  lemma WrapsAround(n: nat, range: nat)
    requires n < range
    ensures (range - n) % range == if n == 0 then 0 else range - n
  {
  }

  lemma {:induction false} OnlyBlanks(s: string)
    ensures SkipBlanks(s) == "" <==> forall c | c in s :: IsBlank(c)
  {
    if s == "" {
    } else {
      OnlyBlanks(s[1..]);
      assert s == [s[0]] + s[1..];
    }
  }

  /** Numbers are read in the range of their type, whose end a minus sign counts back from. */
  lemma RangesOfNumbers(n: Node)
    ensures AsUint32(n).Ok? <==> AsNumber(n, 0x1_0000_0000).Ok?
    ensures AsUint32(n).Ok? ==> AsUint32(n).value == AsNumber(n, 0x1_0000_0000).value
    ensures AsUint64(n).Ok? <==> AsNumber(n, 0x1_0000_0000_0000_0000).Ok?
    ensures AsUint64(n).Ok? ==> AsUint64(n).value == AsNumber(n, 0x1_0000_0000_0000_0000).value
  {
    NumberIsInRange(n, 0x1_0000_0000);
    NumberIsInRange(n, 0x1_0000_0000_0000_0000);
  }

  lemma NumberIsInRange(n: Node, range: nat)
    requires range > 0
    ensures AsNumber(n, range).Ok? ==> AsNumber(n, range).value < range
  {
  }

  /** Texts, flags and numbers are scalars, a text every one of them; lists are lists. */
  lemma KindsOfNodes<T>(n: Node, dec: Node -> Result<T>)
    ensures AsText(n).Ok? <==> n.Scalar?
    ensures n.Scalar? ==> AsText(n) == Ok(n.text)
    ensures AsFlag(n).Ok? || AsUint32(n).Ok? || AsUint64(n).Ok? ==> n.Scalar?
    ensures AsList(n, dec).Ok? ==> n.List?
  {
  }

  // ---- every conversion is undone by its inverse --------------------------------------

  ghost predicate Inverse<T(!new)>(enc: T -> Node, dec: Node -> Result<T>) {
    forall x: T :: dec(enc(x)) == Ok(x)
  }

  lemma FlagsRoundTrip()
    ensures Inverse(OfFlag, AsFlag)
  {
    assert LowerAll("true") == "true" && LowerAll("false") == "false";
  }

  lemma NumberRoundTrip(n: nat, range: nat)
    requires n < range
    ensures AsNumber(OfNumber(n), range) == Ok(n)
  {
    DecimalRoundTrip(n);
  }

  lemma NumbersRoundTrip()
    ensures Inverse(OfUint32, AsUint32) && Inverse(OfUint64, AsUint64)
  {
    forall n: uint32 ensures AsUint32(OfUint32(n)) == Ok(n) { NumberRoundTrip(n, 0x1_0000_0000); }
    forall n: uint64 ensures AsUint64(OfUint64(n)) == Ok(n) { NumberRoundTrip(n, ULONG_RANGE); }
  }

  lemma {:induction false} AllRoundTrip<T>(xs: seq<T>, enc: T -> Node, dec: Node -> Result<T>)
    requires forall x | x in xs :: dec(enc(x)) == Ok(x)
    ensures AsAll(OfAll(xs, enc), dec) == Ok(xs)
  {
    if xs == [] {
    } else {
      assert OfAll(xs, enc)[1..] == OfAll(xs[1..], enc);
      assert xs[0] in xs && OfAll(xs, enc)[0] == enc(xs[0]);
      AllRoundTrip(xs[1..], enc, dec);
      assert [xs[0]] + xs[1..] == xs;
    }
  }

  lemma MatrixRoundTrip()
    ensures Inverse(OfMatrix, AsMatrix)
  {
    NumbersRoundTrip();
    forall m: seq<seq<uint32>>
      ensures AsMatrix(OfMatrix(m)) == Ok(m)
    {
      var enc := (row: seq<uint32>) => OfList(row, OfUint32);
      var dec := (row: Node) => AsList(row, AsUint32);
      forall row | row in m
        ensures dec(enc(row)) == Ok(row)
      {
        AllRoundTrip(row, OfUint32, AsUint32);
      }
      AllRoundTrip(m, enc, dec);
    }
  }

  lemma TextListRoundTrip(xs: seq<string>)
    ensures AsList(OfList(xs, OfText), AsText) == Ok(xs)
  {
    AllRoundTrip(xs, OfText, AsText);
  }

  // ---- Optional -----------------------------------------------------------------------

  /** A value that may be missing, with the key it has in a message. */
  datatype Optional<T> = Optional(tag: string, value: Option<T>)

  function MapOption<T>(x: Option<T>, enc: T -> Node): Option<Node> {
    if x.Some? then Some(enc(x.value)) else None
  }

  function EmitOptional<T>(o: Optional<T>, enc: T -> Node): seq<Entry> {
    Present([Slot(o.tag, MapOption(o.value, enc))])
  }

  /** Optional::load on the value: an absent key changes nothing. */
  function LoadField<T>(was: Option<T>, n: Node, tag: string, dec: Node -> Result<T>): Result<Option<T>> {
    if tag == "" then Ok(was)
    else
      var field :- Field(n, tag);
      if field.None? then Ok(was)
      else
        var x :- dec(field.value);
        Ok(Some(x))
  }

  function LoadOptional<T>(o: Optional<T>, n: Node, dec: Node -> Result<T>): Result<Optional<T>> {
    var value :- LoadField(o.value, n, o.tag, dec);
    Ok(o.(value := value))
  }

  // ---- loads, key by key ---------------------------------------------------------------

  /** What a node that is no scalar holds under a key. */
  function At(n: Node, key: string): Option<Node> {
    if n.Map? then Find(n.entries, key) else None
  }

  /** An optional key is absent, or holds something that can be converted. */
  predicate Fits<T>(n: Node, key: string, dec: Node -> Result<T>) {
    At(n, key).Some? ==> dec(At(n, key).value).Ok?
  }

  /** An absent key leaves the field as it was, a present one sets it to what it holds. */
  ghost predicate Takes<T>(was: Option<T>, n: Node, key: string, dec: Node -> Result<T>, now: Option<T>) {
    match At(n, key)
    case None => now == was
    case Some(x) => now.Some? && dec(x) == Ok(now.value)
  }

  /** A required key is there, and holds something that can be converted. */
  predicate Supplies<T>(n: Node, key: string, dec: Node -> Result<T>) {
    At(n, key).Some? && dec(At(n, key).value).Ok?
  }

  ghost predicate Holds<T>(n: Node, key: string, dec: Node -> Result<T>, now: T) {
    At(n, key).Some? && dec(At(n, key).value) == Ok(now)
  }

  /** Only a scalar, or a present key that cannot be converted, stops the load of an optional field. */
  lemma LoadFieldByKey<T>(was: Option<T>, n: Node, tag: string, dec: Node -> Result<T>)
    ensures tag == "" ==> LoadField(was, n, tag, dec) == Ok(was)
    ensures tag != "" ==> LoadsByKey(was, n, tag, dec)
  {
  }

  ghost predicate LoadsByKey<T>(was: Option<T>, n: Node, tag: string, dec: Node -> Result<T>) {
    var r := LoadField(was, n, tag, dec);
    (r.Ok? <==> !n.Scalar? && Fits(n, tag, dec)) && (r.Ok? ==> Takes(was, n, tag, dec, r.value))
  }

  /** A list is converted element by element, or not at all. */
  lemma {:induction false} AsAllByIndex<T>(ns: seq<Node>, dec: Node -> Result<T>)
    ensures AsAll(ns, dec).Ok? <==> forall x | x in ns :: dec(x).Ok?
    ensures AsAll(ns, dec).Ok? ==>
              |AsAll(ns, dec).value| == |ns| && forall i | 0 <= i < |ns| :: dec(ns[i]) == Ok(AsAll(ns, dec).value[i])
  {
    if ns == [] {
    } else {
      AsAllByIndex(ns[1..], dec);
      assert ns == [ns[0]] + ns[1..];
    }
  }

  /** A field that was written is read back into an empty Optional. */
  lemma FieldRoundTrip<T(!new)>(x: Option<T>, n: Node, tag: string, enc: T -> Node, dec: Node -> Result<T>)
    requires n.Map? && Find(n.entries, tag) == MapOption(x, enc) && Inverse(enc, dec) && tag != ""
    ensures LoadField(None, n, tag, dec) == Ok(x)
  {
  }

  /** Loading two nodes after one another is loading their merge, the later one on the left. */
  lemma LoadFieldMerged<T>(x: Option<T>, n1: seq<Entry>, n2: seq<Entry>, tag: string, dec: Node -> Result<T>)
    requires LoadField(x, Map(n1), tag, dec).Ok? && LoadField(x, Map(n2), tag, dec).Ok?
    ensures LoadField(LoadField(x, Map(n1), tag, dec).value, Map(n2), tag, dec) ==
            LoadField(x, Map(Merge(n2, n1)), tag, dec)
  {
    MergeIsLeftBiased(n2, n1, tag);
  }
}
