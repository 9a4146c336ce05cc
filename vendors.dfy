/**
 * Vendor knowledge of oscilloscope_control.py: the per-vendor SCPI command table, vendor
 * detection from the USB vendor id in a resource name, and the candidate filter that
 * `detect_oscilloscope` applies before probing anything.
 */
module Vendors {
  import opened Outcomes
  import opened Text

  datatype Vendor = Keysight | Siglent | Unknown

  /** One row of VENDOR_COMMANDS; `autoscaleDisable` is None where the vendor has no such command. */
  datatype VendorCommands = VendorCommands(
    autoscaleEnable: string,
    autoscaleDisable: Option<string>,
    timebaseScale: string,
    timebaseFormat: string)   // present in the table, never read by the code

  /** VENDOR_COMMANDS: rows for Keysight and Siglent only. */
  const VendorTable: map<Vendor, VendorCommands> := map[
    Keysight := VendorCommands(":AUToscale", Some(":AUToscale:STATE OFF"), ":TIMebase:SCALe", "{value}"),
    Siglent := VendorCommands("ASET", None, "TDIV", "{value}")
  ]

  /** VENDOR_COMMANDS.get(vendor, VENDOR_COMMANDS['keysight']). */
  function CommandsFor(v: Vendor): (row: VendorCommands)
    ensures row in VendorTable.Values
  {
    if v in VendorTable then VendorTable[v] else VendorTable[Keysight]
  }

  /** A vendor without a row of its own is driven with Keysight's commands. */
  lemma UnknownUsesKeysightRow()
    ensures Unknown !in VendorTable
    ensures CommandsFor(Unknown) == CommandsFor(Keysight)
  {
  }

  /** Only Siglent lacks an autoscale-disable command. */
  lemma DisableMissingOnlyForSiglent(v: Vendor)
    ensures CommandsFor(v).autoscaleDisable.None? <==> v == Siglent
  {
  }

  /** KNOWN_OSCILLOSCOPES: USB vendor ids of Keysight/Agilent and Siglent. */
  const KnownOscilloscopes: seq<string> := ["0x0957", "0xF4EC"]

  /** get_oscilloscope_vendor: case-insensitive search for a vendor id, Keysight's first. */
  function VendorOf(resource: string): Vendor {
    var lower := Lower(resource);
    if Contains(lower, "0x0957") then Keysight
    else if Contains(lower, "0xf4ec") then Siglent
    else Unknown
  }

  /** `code` appears in `s` at `i` once case is ignored. */
  ghost predicate MentionsAt(s: string, code: string, i: int) {
    0 <= i && i + |code| <= |s| && Lower(s[i..i + |code|]) == code
  }

  ghost predicate Mentions(s: string, code: string) {
    exists i :: MentionsAt(s, code, i)
  }

  lemma {:induction false} LowerSlice(s: string, i: int, j: int)
    requires 0 <= i <= j <= |s|
    ensures Lower(s)[i..j] == Lower(s[i..j])
  {
    var a, b := Lower(s)[i..j], Lower(s[i..j]);
    assert |a| == |b| == j - i;
    forall k | 0 <= k < j - i ensures a[k] == b[k] {
      assert a[k] == Lower(s)[i + k] == LowerChar(s[i + k]);
      assert b[k] == LowerChar(s[i..j][k]);
    }
  }

  lemma ContainsLowerIffMentions(s: string, code: string)
    ensures Contains(Lower(s), code) <==> Mentions(s, code)
  {
    if Contains(Lower(s), code) {
      ContainsLowerMentions(s, code);
    }
    if Mentions(s, code) {
      MentionsContainsLower(s, code);
    }
  }

  lemma ContainsLowerMentions(s: string, code: string)
    requires Contains(Lower(s), code)
    ensures Mentions(s, code)
  {
    var i := IndexOf(Lower(s), code).value;
    LowerSlice(s, i, i + |code|);
    assert MentionsAt(s, code, i);
  }

  lemma MentionsContainsLower(s: string, code: string)
    requires Mentions(s, code)
    ensures Contains(Lower(s), code)
  {
    var i :| MentionsAt(s, code, i);
    LowerSlice(s, i, i + |code|);
    assert OccursAt(Lower(s), code, i);
  }

  /**
   * Detection stated against case-blind occurrence: Keysight whenever 0x0957 is mentioned,
   * otherwise Siglent whenever 0xf4ec is, otherwise Unknown.
   */
  lemma VendorOfSpec(resource: string)
    ensures VendorOf(resource) == Keysight <==> Mentions(resource, "0x0957")
    ensures VendorOf(resource) == Siglent <==> !Mentions(resource, "0x0957") && Mentions(resource, "0xf4ec")
    ensures VendorOf(resource) == Unknown <==> !Mentions(resource, "0x0957") && !Mentions(resource, "0xf4ec")
  {
    ContainsLowerIffMentions(resource, "0x0957");
    ContainsLowerIffMentions(resource, "0xf4ec");
  }

  lemma LowerLower(s: string)
    ensures Lower(Lower(s)) == Lower(s)
  {
  }

  /** Detection does not depend on the case the resource name is written in. */
  lemma VendorOfIgnoresCase(resource: string)
    ensures VendorOf(Upper(resource)) == VendorOf(resource)
    ensures VendorOf(Lower(resource)) == VendorOf(resource)
  {
    LowerUpper(resource);
    LowerLower(resource);
  }

  /** A resource mentioning both ids is Keysight: the Keysight test runs first. */
  lemma KeysightWinsOverSiglent(resource: string)
    requires Mentions(resource, "0x0957") && Mentions(resource, "0xf4ec")
    ensures VendorOf(resource) == Keysight
  {
    VendorOfSpec(resource);
  }

  /** The filter `detect_oscilloscope` applies: a USB resource naming a known vendor id. */
  predicate IsCandidate(resource: string) {
    StartsWith(resource, "USB")
    && exists k :: 0 <= k < |KnownOscilloscopes| && Contains(Lower(resource), Lower(KnownOscilloscopes[k]))
  }

  /** Every candidate is recognised by vendor detection. */
  lemma CandidateHasKnownVendor(resource: string)
    requires IsCandidate(resource)
    ensures VendorOf(resource) != Unknown
  {
    assert Lower(KnownOscilloscopes[0]) == "0x0957";
    assert Lower(KnownOscilloscopes[1]) == "0xf4ec";
  }
}
