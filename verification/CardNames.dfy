/**
 The text forms that tie a PCM device to the card it belongs to: the device id
 written by `get_devices`, the card name `get_card_index` reads back out of it,
 and the bus name and object path reserved for a card.
 */
module CardNames {
  import opened Wrappers

  const ID_SIZE := 128  // device_id_size, with the terminating zero

  // ---------- Decimal numbers ----------

  function Digit(d: nat): char
    requires d < 10
  {
    '0' + d as char
  }

  function Decimal(n: nat): (s: string)
    ensures s != []
  {
    if n < 10 then [Digit(n)] else Decimal(n / 10) + [Digit(n % 10)]
  }

  /** The number that a text of digits stands for. */
  function Value(s: string): int {
    if s == [] then 0
    else
      var k := |s| - 1;
      10 * Value(s[..k]) + (s[k] as int - '0' as int)
  }

  /** The decimal numeral of n: digits only, no leading zero except in "0". */
  predicate Numeral(s: string, n: nat) {
    && s != [] && (forall i :: 0 <= i < |s| ==> '0' <= s[i] <= '9')
    && (s[0] == '0' ==> |s| == 1)
    && Value(s) == n
  }

  lemma {:induction false} DecimalIsNumeral(n: nat)
    ensures Numeral(Decimal(n), n)
    ensures n > 0 ==> Decimal(n)[0] != '0'
  {
    if n < 10 {
      assert Decimal(n)[..0] == [];
    } else {
      DecimalIsNumeral(n / 10);
      var k := |Decimal(n)| - 1;
      assert Decimal(n)[..k] == Decimal(n / 10);
    }
  }

  lemma {:induction false} ValueOfDigits(s: string)
    requires s != [] && forall i :: 0 <= i < |s| ==> '0' <= s[i] <= '9'
    ensures Value(s) >= 0 && (s[0] != '0' ==> Value(s) > 0)
  {
    var k := |s| - 1;
    if k > 0 {
      ValueOfDigits(s[..k]);
    }
  }

  lemma {:induction false} NumeralIsDecimal(s: string, n: nat)
    requires Numeral(s, n)
    ensures s == Decimal(n)
  {
    var k := |s| - 1;
    var d := s[k] as int - '0' as int;
    assert s == s[..k] + [s[k]];
    assert Digit(d) == s[k];
    if k > 0 {
      ValueOfDigits(s[..k]);
      assert n == 10 * Value(s[..k]) + d;
      assert n / 10 == Value(s[..k]) && n % 10 == d;
      NumeralIsDecimal(s[..k], n / 10);
    }
  }

  /** A number has one numeral. */
  lemma DecimalExactly(s: string, n: nat)
    ensures Numeral(s, n) <==> s == Decimal(n)
  {
    DecimalIsNumeral(n);
    if Numeral(s, n) {
      NumeralIsDecimal(s, n);
    }
  }

  // ---------- Bus names ----------

  function ServiceName(card: nat): string {
    "org.freedesktop.ReserveDevice1.Audio" + Decimal(card)
  }

  function ObjectPath(card: nat): string {
    "/org/freedesktop/ReserveDevice1/Audio" + Decimal(card)
  }

  /** The name and the path of a card end in its number, in decimal. */
  lemma NamesOfCard(card: nat, numeral: string)
    requires Numeral(numeral, card)
    ensures ServiceName(card) == "org.freedesktop.ReserveDevice1." + ("Audio" + numeral)
    ensures ObjectPath(card) == "/org/freedesktop/ReserveDevice1/" + ("Audio" + numeral)
  {
    NumeralIsDecimal(numeral, card);
  }

  lemma SuffixInjective(prefix: string, a: string, b: string)
    requires prefix + a == prefix + b
    ensures a == b
  {
    assert a == (prefix + a)[|prefix|..] == (prefix + b)[|prefix|..] == b;
  }

  /** Different cards never compete for one bus name or one object path. */
  lemma NamesDistinguishCards(a: nat, b: nat)
    ensures ServiceName(a) == ServiceName(b) <==> a == b
    ensures ObjectPath(a) == ObjectPath(b) <==> a == b
  {
    DecimalIsNumeral(a);
    DecimalIsNumeral(b);
    if ServiceName(a) == ServiceName(b) {
      SuffixInjective("org.freedesktop.ReserveDevice1.Audio", Decimal(a), Decimal(b));
    }
    if ObjectPath(a) == ObjectPath(b) {
      SuffixInjective("/org/freedesktop/ReserveDevice1/Audio", Decimal(a), Decimal(b));
    }
  }

  // ---------- Device ids ----------

  /** The device id as printed into a buffer of ID_SIZE characters. */
  function DeviceId(card: string, dev: nat): string {
    var full := "hw:CARD=" + card + ",DEV=" + Decimal(dev);
    if |full| < ID_SIZE then full else full[..ID_SIZE - 1]
  }

  /** Position of the first `c`, or the length of `s`. */
  function FirstOf(s: string, c: char): (i: nat)
    ensures i <= |s| && c !in s[..i] && (i < |s| ==> s[i] == c)
  {
    if s == [] || s[0] == c then 0
    else
      var i := 1 + FirstOf(s[1..], c);
      assert s[..i] == [s[0]] + s[1..][..i - 1];
      i
  }

  method Find(s: string, c: char) returns (i: nat)
    ensures i == FirstOf(s, c)
  {
    i := 0;
    while i < |s| && s[i] != c
      invariant i <= |s| && c !in s[..i]
    {
      i := i + 1;
    }
    FirstIsUnique(s, c, i);
  }

  lemma FirstIsUnique(s: string, c: char, i: nat)
    requires i <= |s| && c !in s[..i] && (i < |s| ==> s[i] == c)
    ensures i == FirstOf(s, c)
  {
    var j := FirstOf(s, c);
    assert forall k :: 0 <= k < i ==> s[k] in s[..i];
    assert forall k :: 0 <= k < j ==> s[k] in s[..j];
  }

  /** The card name in a device name: what follows the first ':', without a
      "CARD=" prefix, up to the next ','. */
  function CardNameOf(device: string): Option<string> {
    var separator := FirstOf(device, ':');
    if separator == |device| then None
    else
      var rest := device[separator + 1..];
      var name := if "CARD=" <= rest then rest[5..] else rest;
      var card := name[..FirstOf(name, ',')];
      if card == "" then None else Some(card)
  }

  /** `device` reads `before:name`, perhaps with "CARD=" in front of the name, and
      perhaps with a comma and more text behind it. */
  predicate Spells(device: string, before: string, mark: string, name: string, rest: string) {
    && device == before + ":" + (mark + (name + rest)) && ':' !in before
    && (mark == "CARD=" || (mark == "" && !("CARD=" <= name + rest)))
    && name != "" && ',' !in name && (rest == "" || rest[0] == ',')
  }

  ghost predicate HasCard(device: string, name: string) {
    exists before, mark, rest :: Spells(device, before, mark, name, rest)
  }

  lemma CardIsWhatIsNamed(device: string, before: string, mark: string, name: string, rest: string)
    requires Spells(device, before, mark, name, rest)
    ensures CardNameOf(device) == Some(name)
  {
    assert device[..|before|] == before && device[|before|] == ':';
    FirstIsUnique(device, ':', |before|);
    var tail := device[|before| + 1..];
    assert tail == mark + (name + rest);
    assert "CARD=" <= tail <==> mark == "CARD=" by {
      assert mark == "CARD=" ==> tail[..5] == "CARD=";
      assert mark == "" ==> tail == name + rest;
    }
    var text := if "CARD=" <= tail then tail[5..] else tail;
    assert text == name + rest;
    assert text[..|name|] == name;
    FirstIsUnique(text, ',', |name|);
  }

  lemma SplitAt(s: string, i: nat)
    requires i < |s|
    ensures s == s[..i] + [s[i]] + s[i + 1..]
  {
  }

  lemma NameOfTail(device: string, before: string, tail: string)
    requires device == before + ":" + tail && ':' !in before
    ensures var text := if "CARD=" <= tail then tail[5..] else tail;
            var name := text[..FirstOf(text, ',')];
            name != "" ==> HasCard(device, name)
  {
    var mark := if "CARD=" <= tail then "CARD=" else "";
    var text := tail[|mark|..];
    assert tail == mark + text;
    var comma := FirstOf(text, ',');
    var name, rest := text[..comma], text[comma..];
    if name != "" {
      hide FirstOf;
      assert text == name + rest;
      assert Spells(device, before, mark, name, rest);
      hide Spells;
    }
  }

  lemma CardIsNamed(device: string)
    requires CardNameOf(device).Some?
    ensures HasCard(device, CardNameOf(device).value)
  {
    var separator := FirstOf(device, ':');
    hide FirstOf, HasCard;
    SplitAt(device, separator);
    NameOfTail(device, device[..separator], device[separator + 1..]);
  }

  lemma HasCardExactly(device: string)
    ensures forall name :: HasCard(device, name) <==> CardNameOf(device) == Some(name)
  {
    forall name | HasCard(device, name)
      ensures CardNameOf(device) == Some(name)
    {
      var before, mark, rest :| Spells(device, before, mark, name, rest);
      CardIsWhatIsNamed(device, before, mark, name, rest);
    }
    if CardNameOf(device).Some? {
      CardIsNamed(device);
    }
  }

  /** The result is the card that the text of `device` names: there is one result
      for each text, and none exactly when the text names no card. */
  method CardName(device: string) returns (card: Option<string>)
    ensures forall name :: HasCard(device, name) <==> card == Some(name)
    ensures card == CardNameOf(device)
  {
    HasCardExactly(device);
    var separator := Find(device, ':');
    if separator == |device| {
      return None;
    }

    var name := device[separator + 1..];
    if "CARD=" <= name {
      name := name[5..];
    }

    var comma := Find(name, ',');
    assert comma == |name| ==> name[..comma] == name;
    if comma < |name| {
      name := name[..comma];
    }

    if name == "" {
      return None;
    }
    return Some(name);
  }

  lemma CardOfHwName(name: string)
    ensures CardNameOf("hw:CARD=" + name) == var c := name[..FirstOf(name, ',')]; if c == "" then None else Some(c)
  {
    var id := "hw:CARD=" + name;
    FirstIsUnique(id, ':', 2);
    hide FirstOf;
    assert id[3..] == "CARD=" + name;
    assert id[3..][..5] == "CARD=";
    assert id[3..][5..] == name;
  }

  /** The printed id, cut to the 127 characters that the buffer holds. */
  lemma DeviceIdIs(card: string, dev: nat, numeral: string)
    requires Numeral(numeral, dev)
    ensures var full := "hw:CARD=" + card + ",DEV=" + numeral;
            DeviceId(card, dev) == if |full| <= 127 then full else full[..127]
  {
    NumeralIsDecimal(numeral, dev);
  }

  function Cut(s: string, room: nat): string {
    if |s| <= room then s else s[..room]
  }

  /** The device id is cut behind the fixed text in front of the card. */
  lemma DeviceIdText(card: string, dev: nat)
    ensures DeviceId(card, dev) == "hw:CARD=" + Cut(card + (",DEV=" + Decimal(dev)), ID_SIZE - 1 - |"hw:CARD="|)
  {
    hide Decimal;
    assert "hw:CARD=" + card + ",DEV=" + Decimal(dev) == "hw:CARD=" + (card + (",DEV=" + Decimal(dev)));
  }

  /** What stands before the first comma of a cut text. */
  lemma CutBeforeComma(card: string, after: string, room: nat)
    requires after != "" && after[0] == ','
    ensures var name := Cut(card + after, room);
            name[..FirstOf(name, ',')] == card <==> ',' !in card && |card| <= room
  {
    var name := Cut(card + after, room);
    if ',' !in card && |card| <= room {
      assert name[..|card|] == card;
      FirstIsUnique(name, ',', |card|);
    }
  }

  /** The card id survives printing and parsing exactly when it is non-empty,
      has no comma, and leaves the 127 characters of the buffer room for it. */
  lemma DeviceIdRoundTrip(card: string, dev: nat)
    ensures CardNameOf(DeviceId(card, dev)) == Some(card) <==>
            card != "" && ',' !in card && |card| <= ID_SIZE - 1 - |"hw:CARD="|
  {
    var after, room := ",DEV=" + Decimal(dev), ID_SIZE - 1 - |"hw:CARD="|;
    hide Cut, FirstOf, Decimal, DeviceId;
    DeviceIdText(card, dev);
    CardOfHwName(Cut(card + after, room));
    CutBeforeComma(card, after, room);
  }

  /** Every PCM device of a card leads to the same card. */
  lemma DevicesShareTheirCard(card: string, dev1: nat, dev2: nat)
    requires card != "" && ',' !in card && |card| <= ID_SIZE - 1 - |"hw:CARD="|
    ensures CardNameOf(DeviceId(card, dev1)) == CardNameOf(DeviceId(card, dev2)) == Some(card)
  {
    DeviceIdRoundTrip(card, dev1);
    DeviceIdRoundTrip(card, dev2);
  }
}
