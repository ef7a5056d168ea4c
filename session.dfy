/**
 * The browser-side session id: read `sessionId` from local storage and, when
 * it is missing or empty, create one (from `crypto.randomUUID` when available,
 * otherwise by filling a version-4 UUID template, each placeholder printing
 * its random draw in hex) and store it. The random draws are inputs: one per placeholder, in order, each
 * the value after `| 0`, which fits in a byte on both paths.
 */
module Session {
  import opened Wrappers

  const Template := "xxxxxxxx-xxxx-4xxx-yxxx-xxxxxxxxxxxx"
  const HexDigits := "0123456789abcdef"
  const StorageKey := "sessionId"

  function HexDigit(n: nat): (c: char)
    requires n < 16
    ensures c in HexDigits
  {
    HexDigits[n]
  }

  /** `n.toString(16)` for a non-negative integer: no leading zeros, one digit only below 16. */
  function ToHex(n: nat): (r: string)
    ensures |r| >= 1
    ensures |r| == 1 <==> n < 16
    ensures forall i :: 0 <= i < |r| ==> r[i] in HexDigits
  {
    if n < 16 then [HexDigit(n)] else ToHex(n / 16) + [HexDigit(n % 16)]
  }

  /** A byte prints as at most two hex digits. */
  lemma ByteToHexLength(n: nat)
    requires n < 256
    ensures |ToHex(n)| == if n < 16 then 1 else 2
  {
    if n >= 16 {
      assert n / 16 < 16;
    }
  }

  /** The draw the next placeholder takes; a list that has run out reads as zero draws. */
  function NextDraw(rs: seq<bv8>): bv8 {
    if rs == [] then 0 else rs[0]
  }

  function LaterDraws(rs: seq<bv8>): seq<bv8> {
    if rs == [] then [] else rs[1..]
  }

  /** The template's characters by position: dashes at 8, 13, 18 and 23, the version `4` at 14, the variant `y` at 19. */
  function TemplateChar(i: nat): char {
    if i == 8 || i == 13 || i == 18 || i == 23 then '-' else if i == 14 then '4' else if i == 19 then 'y' else 'x'
  }

  lemma TemplateLayout()
    ensures |Template| == 36
    ensures forall i :: 0 <= i < 36 ==> Template[i] == TemplateChar(i)
  {
  }

  /** `(r & 0x3) | 0x8`: the variant nibble, always 8, 9, a or b. */
  function VariantNibble(r: bv8): (n: nat)
    ensures 8 <= n < 12
  {
    ((r & 0x3) | 0x8) as nat
  }

  /** The template fill as written: an `x` prints the whole draw, a `y` the variant nibble. */
  function FillAsWritten(t: string, rs: seq<bv8>): string
  {
    if t == [] then []
    else if t[0] == 'x' then ToHex(NextDraw(rs) as nat) + FillAsWritten(t[1..], LaterDraws(rs))
    else if t[0] == 'y' then [HexDigit(VariantNibble(NextDraw(rs)))] + FillAsWritten(t[1..], LaterDraws(rs))
    else [t[0]] + FillAsWritten(t[1..], rs)
  }

  /** The template fill as intended: an `x` prints the low nibble of the draw, one hex digit. */
  function Fill(t: string, rs: seq<bv8>): (r: string)
    ensures |r| == |t|
  {
    if t == [] then []
    else if t[0] == 'x' then [HexDigit((NextDraw(rs) & 0xF) as nat)] + Fill(t[1..], LaterDraws(rs))
    else if t[0] == 'y' then [HexDigit(VariantNibble(NextDraw(rs)))] + Fill(t[1..], LaterDraws(rs))
    else [t[0]] + Fill(t[1..], rs)
  }

  /** Position by position: an `x` becomes a hex digit, a `y` one of 8, 9, a, b, and every other character stays. */
  lemma {:induction false} FillAt(t: string, rs: seq<bv8>, i: nat)
    requires i < |t|
    ensures t[i] == 'x' ==> Fill(t, rs)[i] in HexDigits
    ensures t[i] == 'y' ==> Fill(t, rs)[i] in "89ab"
    ensures t[i] != 'x' && t[i] != 'y' ==> Fill(t, rs)[i] == t[i]
  {
    if i > 0 {
      if t[0] == 'x' || t[0] == 'y' {
        FillAt(t[1..], LaterDraws(rs), i - 1);
      } else {
        FillAt(t[1..], rs, i - 1);
      }
    } else if t[0] == 'y' {
      var n := VariantNibble(NextDraw(rs));
      assert HexDigits[n] == "89ab"[n - 8];
    }
  }

  /** A version-4 UUID string: 36 characters, dashes at 8, 13, 18 and 23, the version `4` at 14, one of 8, 9, a, b at 19, hex elsewhere. */
  predicate UuidV4Shape(id: string) {
    && |id| == 36
    && id[8] == '-' && id[13] == '-' && id[18] == '-' && id[23] == '-'
    && id[14] == '4'
    && id[19] in "89ab"
    && forall i :: 0 <= i < 36 && i !in {8, 13, 18, 23} ==> id[i] in HexDigits
  }

  /** The intended fill always yields a version-4 UUID string. */
  lemma UuidShape(rs: seq<bv8>)
    ensures UuidV4Shape(Fill(Template, rs))
  {
    TemplateLayout();
    forall i | 0 <= i < 36
      ensures TemplateChar(i) == 'x' ==> Fill(Template, rs)[i] in HexDigits
      ensures TemplateChar(i) == 'y' ==> Fill(Template, rs)[i] in "89ab"
      ensures TemplateChar(i) != 'x' && TemplateChar(i) != 'y' ==> Fill(Template, rs)[i] == TemplateChar(i)
    {
      FillAt(Template, rs, i);
    }
  }

  /** The number of `x` placeholders whose draw is 16 or more. */
  function WideDraws(t: string, rs: seq<bv8>): nat
  {
    if t == [] then 0
    else if t[0] == 'x' then (if NextDraw(rs) >= 16 then 1 else 0) + WideDraws(t[1..], LaterDraws(rs))
    else if t[0] == 'y' then WideDraws(t[1..], LaterDraws(rs))
    else WideDraws(t[1..], rs)
  }

  /** As written, every wide draw adds one character to the id. */
  lemma {:induction false} FillAsWrittenLength(t: string, rs: seq<bv8>)
    ensures |FillAsWritten(t, rs)| == |t| + WideDraws(t, rs)
  {
    if t != [] {
      if t[0] == 'x' {
        ByteToHexLength(NextDraw(rs) as nat);
        FillAsWrittenLength(t[1..], LaterDraws(rs));
      } else if t[0] == 'y' {
        FillAsWrittenLength(t[1..], LaterDraws(rs));
      } else {
        FillAsWrittenLength(t[1..], rs);
      }
    }
  }

  /** As written, the id has the UUID length of 36 exactly when no `x` draw is 16 or more. */
  lemma AsWrittenLengthIff(rs: seq<bv8>)
    ensures |FillAsWritten(Template, rs)| == 36 <==> WideDraws(Template, rs) == 0
  {
    FillAsWrittenLength(Template, rs);
  }

  /** On the `Math.random() * 16` path every draw is below 16, and the fill as written is the intended one. */
  lemma {:induction false} AsWrittenAgreesOnNibbles(t: string, rs: seq<bv8>)
    requires forall i :: 0 <= i < |rs| ==> rs[i] < 16
    ensures FillAsWritten(t, rs) == Fill(t, rs)
  {
    if t != [] {
      assert forall i :: 0 <= i < |LaterDraws(rs)| ==> LaterDraws(rs)[i] == rs[i + 1];
      if t[0] == 'x' {
        assert NextDraw(rs) & 0xF == NextDraw(rs);
        AsWrittenAgreesOnNibbles(t[1..], LaterDraws(rs));
      } else if t[0] == 'y' {
        AsWrittenAgreesOnNibbles(t[1..], LaterDraws(rs));
      } else {
        AsWrittenAgreesOnNibbles(t[1..], rs);
      }
    }
  }

  /** On the `Math.random() * 16` path the fill as written does yield a version-4 UUID string. */
  lemma NibbleDrawsGiveUuid(rs: seq<bv8>)
    requires forall i :: 0 <= i < |rs| ==> rs[i] < 16
    ensures UuidV4Shape(FillAsWritten(Template, rs))
  {
    AsWrittenAgreesOnNibbles(Template, rs);
    UuidShape(rs);
  }

  /** On the `getRandomValues` path, a first byte of 16 or more (0xff, say) already makes the id longer than a UUID. */
  lemma WideFirstByteOverlong(rs: seq<bv8>)
    requires |rs| > 0 && rs[0] >= 16
    ensures |FillAsWritten(Template, rs)| > 36
  {
    FillAsWrittenLength(Template, rs);
    TemplateLayout();
  }

  /** `window.localStorage`, a string-to-string dictionary. */
  class LocalStorage {
    var items: map<string, string>

    constructor(items0: map<string, string>)
      ensures items == items0
    {
      items := items0;
    }

    /** `getItem(key)`, `None` standing for `null`. */
    method GetItem(key: string) returns (value: Option<string>)
      ensures value == if key in items then Some(items[key]) else None
    {
      value := if key in items then Some(items[key]) else None;
    }

    method SetItem(key: string, value: string)
      modifies this
      ensures items == old(items)[key := value]
    {
      items := items[key := value];
    }
  }

  /**
   * `getSessionId`: `randomUuid` is what `crypto.randomUUID()` yields where it
   * exists, `draws` feed the template otherwise, filled as abtest.js does it
   * (so a fresh id is a UUID only when every draw is below 16, see
   * `NibbleDrawsGiveUuid` and `WideFirstByteOverlong`).
   */
  method GetSessionId(storage: LocalStorage, randomUuid: Option<string>, draws: seq<bv8>) returns (sessionId: string)
    modifies storage
    ensures StorageKey in old(storage.items) && old(storage.items)[StorageKey] != "" ==>
      sessionId == old(storage.items)[StorageKey] && storage.items == old(storage.items)
    ensures !(StorageKey in old(storage.items) && old(storage.items)[StorageKey] != "") ==>
      sessionId == (if randomUuid.Some? then randomUuid.value else FillAsWritten(Template, draws))
      && storage.items == old(storage.items)[StorageKey := sessionId]
  {
    var stored := storage.GetItem(StorageKey);
    if stored.Some? && stored.value != "" {
      sessionId := stored.value;
    } else {
      if randomUuid.Some? {
        sessionId := randomUuid.value;
      } else {
        sessionId := FillAsWritten(Template, draws);
      }
      storage.SetItem(StorageKey, sessionId);
    }
  }

  /** Two calls in a row: the second finds the first one's id and returns it without writing. */
  method SessionIdIsStable(storage: LocalStorage, uuid1: Option<string>, draws1: seq<bv8>,
                           uuid2: Option<string>, draws2: seq<bv8>) returns (first: string, second: string)
    requires uuid1.Some? ==> uuid1.value != ""
    modifies storage
    ensures first == second
    ensures StorageKey in storage.items && storage.items[StorageKey] == first
    ensures forall k :: k in old(storage.items) && k != StorageKey ==> k in storage.items && storage.items[k] == old(storage.items)[k]
  {
    first := GetSessionId(storage, uuid1, draws1);
    if uuid1.None? {
      TemplateLayout();
      FillAsWrittenLength(Template, draws1);
    }
    second := GetSessionId(storage, uuid2, draws2);
  }
}
