/** The device panel: two connection flags driven by the WebHID snapshot,
    hotplug events and access requests, classified by the device's name, and
    the "simulate scan" input that feeds a barcode to the register. */
module Devices {
  import opened Model

  /** A HID device as the panel sees it: only its optional product name. */
  datatype Device = Device(productName: Option<string>)

  /** How a request for device access ends: cancelled, or with the devices picked. */
  datatype Request = Cancelled | Picked(devices: seq<Device>)

  /** `d.productName || ''`: a missing name reads as the empty string. */
  function NameOf(d: Device): string
  {
    match d.productName
    case Some(n) => n
    case None => ""
  }

  /** `toLowerCase` on one character: 'A'..'Z' become 'a'..'z', nothing else changes. */
  function LowerChar(c: char): (r: char)
    ensures !('A' <= r <= 'Z')
    ensures 'A' <= c <= 'Z' ==> r == "abcdefghijklmnopqrstuvwxyz"[c as int - 'A' as int]
    ensures !('A' <= c <= 'Z') ==> r == c
  {
    if 'A' <= c <= 'Z' then (c as int + 32) as char else c
  }

  /** ASCII lowercasing of a name. */
  function Lower(s: string): (r: string)
    ensures |r| == |s|
    ensures forall i :: 0 <= i < |s| ==> r[i] == LowerChar(s[i])
    decreases |s|
  {
    if s == [] then "" else [LowerChar(s[0])] + Lower(s[1..])
  }

  /** Lowercasing twice is lowercasing once. */
  lemma LowerIdempotent(s: string)
    ensures Lower(Lower(s)) == Lower(s)
  {
    var once := Lower(s);
    assert forall i :: 0 <= i < |s| ==> Lower(once)[i] == once[i];
  }

  /** `s.includes(t)`: `t` occurs in `s`, tried at each starting position. */
  function Contains(s: string, t: string): bool
    decreases |s|
  {
    (|t| <= |s| && s[..|t|] == t) || (s != [] && Contains(s[1..], t))
  }

  /** `t` occurs in `s` starting at position `i`. */
  predicate OccursAt(s: string, t: string, i: int)
  {
    0 <= i <= |s| - |t| && s[i..i + |t|] == t
  }

  lemma {:induction false} OccursContains(s: string, t: string, i: int)
    requires OccursAt(s, t, i)
    ensures Contains(s, t)
    decreases i
  {
    if i > 0 {
      assert s[1..][i - 1..i - 1 + |t|] == s[i..i + |t|];
      OccursContains(s[1..], t, i - 1);
    }
  }

  lemma {:induction false} ContainsOccurs(s: string, t: string) returns (i: int)
    requires Contains(s, t)
    ensures OccursAt(s, t, i)
    decreases |s|
  {
    if |t| <= |s| && s[..|t|] == t {
      i := 0;
    } else {
      var j := ContainsOccurs(s[1..], t);
      assert s[1..][j..j + |t|] == s[j + 1..j + 1 + |t|];
      i := j + 1;
    }
  }

  /** Reference definition of `Contains`: `t` occurs at some position of `s`. */
  lemma ContainsAt(s: string, t: string)
    ensures Contains(s, t) <==> exists i :: OccursAt(s, t, i)
  {
    if Contains(s, t) {
      var i := ContainsOccurs(s, t);
    }
    if exists i :: OccursAt(s, t, i) {
      var i :| OccursAt(s, t, i);
      OccursContains(s, t, i);
    }
  }

  /** Tokens that make a lowercased name a receipt printer. */
  predicate PrinterRole(lowered: string)
  {
    Contains(lowered, "printer") || Contains(lowered, "receipt")
  }

  /** Tokens that make a lowercased name a barcode scanner on connect and request. */
  predicate ScannerRole(lowered: string)
  {
    Contains(lowered, "scanner") || Contains(lowered, "barcode")
  }

  /** The case-insensitive scanner pattern of the startup snapshot, which also accepts "hid". */
  predicate SnapshotScannerRole(name: string)
  {
    var n := Lower(name);
    Contains(n, "scanner") || Contains(n, "barcode") || Contains(n, "hid")
  }

  /** Some already-granted device is a scanner by the snapshot pattern. */
  predicate AnyScanner(devices: seq<Device>)
  {
    exists i :: 0 <= i < |devices| && SnapshotScannerRole(NameOf(devices[i]))
  }

  /** Some already-granted device is a printer. */
  predicate AnyPrinter(devices: seq<Device>)
  {
    exists i :: 0 <= i < |devices| && PrinterRole(Lower(NameOf(devices[i])))
  }

  /** `c` matches the token character `t` when case is ignored. */
  predicate CharMatchI(c: char, t: char)
  {
    c == t || ('a' <= t <= 'z' && c as int == t as int - 32)
  }

  /** `t` occurs in `s` at position `i`, letters compared without regard to case. */
  predicate OccursAtI(s: string, t: string, i: int)
  {
    0 <= i <= |s| - |t| && forall k :: 0 <= k < |t| ==> CharMatchI(s[i + k], t[k])
  }

  /** What a regular expression with the `i` flag tests for one alternative. */
  ghost predicate ContainsI(s: string, t: string)
  {
    exists i :: OccursAtI(s, t, i)
  }

  /** A token without upper-case letters, as every role token is. */
  predicate LowerToken(t: string)
  {
    forall k :: 0 <= k < |t| ==> !('A' <= t[k] <= 'Z')
  }

  lemma LowerCharMatch(c: char, t: char)
    requires !('A' <= t <= 'Z')
    ensures LowerChar(c) == t <==> CharMatchI(c, t)
  {
  }

  /** Lowercasing and then searching for a lower-case token is a case-insensitive search. */
  lemma {:induction false} LowerContainsI(s: string, t: string)
    requires LowerToken(t)
    ensures Contains(Lower(s), t) <==> ContainsI(s, t)
  {
    var n := Lower(s);
    ContainsAt(n, t);
    forall i | 0 <= i <= |s| - |t|
      ensures OccursAt(n, t, i) <==> OccursAtI(s, t, i)
    {
      forall k | 0 <= k < |t|
        ensures n[i..i + |t|][k] == t[k] <==> CharMatchI(s[i + k], t[k])
      {
        LowerCharMatch(s[i + k], t[k]);
      }
    }
    if ContainsI(s, t) {
      var i :| OccursAtI(s, t, i);
      assert OccursAt(n, t, i);
    }
    if Contains(n, t) {
      var i :| OccursAt(n, t, i);
      assert OccursAtI(s, t, i);
    }
  }

  /** Classification is the case-insensitive token match of the source: every
      letter of the name may come in either case. */
  lemma RolesIgnoreCase(name: string)
    ensures PrinterRole(Lower(name)) <==> ContainsI(name, "printer") || ContainsI(name, "receipt")
    ensures ScannerRole(Lower(name)) <==> ContainsI(name, "scanner") || ContainsI(name, "barcode")
    ensures SnapshotScannerRole(name) <==>
              ContainsI(name, "scanner") || ContainsI(name, "barcode") || ContainsI(name, "hid")
  {
    LowerContainsI(name, "printer");
    LowerContainsI(name, "receipt");
    LowerContainsI(name, "scanner");
    LowerContainsI(name, "barcode");
    LowerContainsI(name, "hid");
  }

  /** Every scanner by the hotplug tokens is one by the snapshot pattern; the
      converse fails, since "hid" counts only at the snapshot. */
  lemma ScannerImpliesSnapshot(name: string)
    ensures ScannerRole(Lower(name)) ==> SnapshotScannerRole(name)
    ensures SnapshotScannerRole("HID") && !ScannerRole(Lower("HID"))
  {
    assert Lower("HID") == "hid";
    ContainsAt("hid", "scanner");
    ContainsAt("hid", "barcode");
    assert "hid"[..3] == "hid";
  }

  /** Lowercasing a string without upper-case letters changes nothing. */
  lemma LowerOfLower(s: string)
    requires LowerToken(s)
    ensures Lower(s) == s
  {
    assert forall i :: 0 <= i < |s| ==> Lower(s)[i] == s[i];
  }

  /** Both role tokens occur in "barcode receipt". */
  lemma BarcodeReceiptTokens(name: string)
    requires name == "barcode receipt"
    ensures PrinterRole(name) && ScannerRole(name)
  {
    assert name[..7] == "barcode";
    assert OccursAt(name, "receipt", 8);
    ContainsAt(name, "receipt");
  }

  /** One name can name both roles, so one device may set both flags. */
  lemma BothRoles()
    ensures exists name :: PrinterRole(Lower(name)) && ScannerRole(Lower(name))
  {
    var name := "barcode receipt";
    assert LowerToken(name);
    LowerOfLower(name);
    BarcodeReceiptTokens(name);
  }

  /** A missing name is the empty name, which has no role. */
  lemma MissingNameHasNoRole()
    ensures !PrinterRole(Lower(NameOf(Device(None))))
    ensures !ScannerRole(Lower(NameOf(Device(None))))
  {
  }

  // ----- the simulate-scan input -----

  /** The characters `String.prototype.trim` removes: white space and line terminators. */
  predicate IsSpace(c: char)
  {
    var u := c as int;
    || 0x09 <= u <= 0x0D               // tab, line feed, vertical tab, form feed, carriage return
    || u == 0x20 || u == 0xA0 || u == 0x1680
    || 0x2000 <= u <= 0x200A
    || u == 0x2028 || u == 0x2029      // line and paragraph separators
    || u == 0x202F || u == 0x205F || u == 0x3000
    || u == 0xFEFF                     // byte order mark
  }

  /** Number of leading spaces. */
  function LeadingSpaces(s: string): (n: nat)
    ensures n <= |s|
    ensures forall k :: 0 <= k < n ==> IsSpace(s[k])
    ensures n < |s| ==> !IsSpace(s[n])
    decreases |s|
  {
    if s != [] && IsSpace(s[0]) then 1 + LeadingSpaces(s[1..]) else 0
  }

  /** Number of trailing spaces. */
  function TrailingSpaces(s: string): (n: nat)
    ensures n <= |s|
    ensures forall k :: |s| - n <= k < |s| ==> IsSpace(s[k])
    ensures n < |s| ==> !IsSpace(s[|s| - 1 - n])
    decreases |s|
  {
    if s != [] && IsSpace(s[|s| - 1]) then 1 + TrailingSpaces(s[..|s| - 1]) else 0
  }

  /** `s.trim()`: the slice between the leading and the trailing spaces. */
  function Trim(s: string): (r: string)
    ensures |r| <= |s|
    ensures exists i, j :: 0 <= i <= j <= |s| && r == s[i..j]
                           && (forall k :: 0 <= k < i ==> IsSpace(s[k]))
                           && (forall k :: j <= k < |s| ==> IsSpace(s[k]))
    ensures r != [] ==> !IsSpace(r[0]) && !IsSpace(r[|r| - 1])
  {
    var lead := LeadingSpaces(s);
    var rest := s[lead..];
    var j := |s| - TrailingSpaces(rest);
    var r := rest[..|rest| - TrailingSpaces(rest)];
    assert r == s[lead..j];
    assert forall k :: 0 <= k < lead ==> IsSpace(s[k]);
    assert forall k :: j <= k < |s| ==> IsSpace(s[k]) by {
      forall k | j <= k < |s| ensures IsSpace(s[k]) {
        assert s[k] == rest[k - lead];
      }
    }
    assert 0 <= lead <= j <= |s|;
    r
  }

  /** The Add button is enabled when the trimmed input is non-empty. */
  predicate CanSimulate(input: string)
  {
    |Trim(input)| > 0
  }

  /** The input can be submitted exactly when it holds a non-space character. */
  lemma CanSimulateIff(input: string)
    ensures CanSimulate(input) <==> exists k :: 0 <= k < |input| && !IsSpace(input[k])
  {
    var lead := LeadingSpaces(input);
    var rest := input[lead..];
    if lead < |input| {
      assert !IsSpace(rest[0]);
      assert TrailingSpaces(rest) < |rest|;
    }
  }

  /** Trimming twice is trimming once. */
  lemma TrimIdempotent(s: string)
    ensures Trim(Trim(s)) == Trim(s)
  {
    var t := Trim(s);
    if t != [] {
      assert LeadingSpaces(t) == 0;
      assert TrailingSpaces(t[0..]) == 0 by { assert t[0..] == t; }
    }
  }

  /** The device panel's state. */
  class Panel {
    var hidSupported: bool
    var scannerConnected: bool
    var printerConnected: bool
    var simBarcode: string

    /** Mounting the panel: record whether WebHID exists and, if it does,
        take the flags from the already-granted devices. */
    constructor (hid: bool, granted: seq<Device>)
      ensures hidSupported == hid
      ensures scannerConnected == (hid && AnyScanner(granted))
      ensures printerConnected == (hid && AnyPrinter(granted))
      ensures simBarcode == ""
    {
      hidSupported := hid;
      scannerConnected := false;
      printerConnected := false;
      simBarcode := "";
      if hid {
        var hasScanner := AnyScanner(granted);
        var hasPrinter := AnyPrinter(granted);
        scannerConnected := hasScanner;
        printerConnected := hasPrinter;
      }
    }

    /** A connect event; delivered only when WebHID exists. A flag can only
        turn on, and only for a name with one of its role's tokens. */
    method HandleConnect(d: Device)
      modifies this
      ensures hidSupported == old(hidSupported) && simBarcode == old(simBarcode)
      ensures printerConnected == (old(printerConnected) || (hidSupported && PrinterRole(Lower(NameOf(d)))))
      ensures scannerConnected == (old(scannerConnected) || (hidSupported && ScannerRole(Lower(NameOf(d)))))
    {
      if !hidSupported {
        return;
      }
      var name := Lower(NameOf(d));
      if PrinterRole(name) {
        printerConnected := true;
      }
      if ScannerRole(name) {
        scannerConnected := true;
      }
    }

    /** A disconnect event: the mirror of `HandleConnect`, turning flags off. */
    method HandleDisconnect(d: Device)
      modifies this
      ensures hidSupported == old(hidSupported) && simBarcode == old(simBarcode)
      ensures printerConnected == (old(printerConnected) && !(hidSupported && PrinterRole(Lower(NameOf(d)))))
      ensures scannerConnected == (old(scannerConnected) && !(hidSupported && ScannerRole(Lower(NameOf(d)))))
    {
      if !hidSupported {
        return;
      }
      var name := Lower(NameOf(d));
      if PrinterRole(name) {
        printerConnected := false;
      }
      if ScannerRole(name) {
        scannerConnected := false;
      }
    }

    /** The Connect Scanner button: only the scanner flag, only turned on, and
        only when the first picked device is named like a scanner. */
    method RequestScanner(outcome: Request)
      modifies this
      ensures hidSupported == old(hidSupported) && simBarcode == old(simBarcode)
      ensures printerConnected == old(printerConnected)
      ensures scannerConnected == (old(scannerConnected) ||
                (hidSupported && outcome.Picked? && |outcome.devices| > 0 &&
                 ScannerRole(Lower(NameOf(outcome.devices[0])))))
    {
      if !hidSupported {
        return;
      }
      match outcome
      case Cancelled =>
      case Picked(devices) =>
        if |devices| > 0 {
          var name := Lower(NameOf(devices[0]));
          if ScannerRole(name) {
            scannerConnected := true;
          }
        }
    }

    /** The Connect Printer button: the same for the printer flag. */
    method RequestPrinter(outcome: Request)
      modifies this
      ensures hidSupported == old(hidSupported) && simBarcode == old(simBarcode)
      ensures scannerConnected == old(scannerConnected)
      ensures printerConnected == (old(printerConnected) ||
                (hidSupported && outcome.Picked? && |outcome.devices| > 0 &&
                 PrinterRole(Lower(NameOf(outcome.devices[0])))))
    {
      if !hidSupported {
        return;
      }
      match outcome
      case Cancelled =>
      case Picked(devices) =>
        if |devices| > 0 {
          var name := Lower(NameOf(devices[0]));
          if PrinterRole(name) {
            printerConnected := true;
          }
        }
    }

    /** Typing in the simulate-scan input. */
    method SetSimBarcode(input: string)
      modifies this
      ensures simBarcode == input
      ensures hidSupported == old(hidSupported)
      ensures scannerConnected == old(scannerConnected) && printerConnected == old(printerConnected)
    {
      simBarcode := input;
    }

    /** The Add button: hands on the trimmed code when there is one, and then
        clears the input; otherwise does nothing. */
    method HandleSimulate() returns (code: Option<string>)
      modifies this
      ensures code == if CanSimulate(old(simBarcode)) then Some(Trim(old(simBarcode))) else None
      ensures code.Some? ==> code.value != [] && !IsSpace(code.value[0])
      ensures simBarcode == if CanSimulate(old(simBarcode)) then "" else old(simBarcode)
      ensures hidSupported == old(hidSupported)
      ensures scannerConnected == old(scannerConnected) && printerConnected == old(printerConnected)
    {
      if !CanSimulate(simBarcode) {
        return None;
      }
      code := Some(Trim(simBarcode));
      simBarcode := "";
    }
  }
}
