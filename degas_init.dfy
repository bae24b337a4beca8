/**
  The vendor property initializer of the degaslte board: once the platform
  matches the build target, the bootloader identifier picks one of two
  hard-coded build identities, whose four properties are written over the
  system property table.

  The property table is a map from names to values; a name that is absent
  reads as the empty string. The build target (ANDROID_TARGET) is a
  parameter.
 */
module DegasInit {
  import opened Wrappers

  const PLATFORM: string := "ro.board.platform"
  const BOOTLOADER: string := "ro.bootloader"

  const FINGERPRINT: string := "ro.build.fingerprint"
  const DESCRIPTION: string := "ro.build.description"
  const MODEL: string := "ro.product.model"
  const DEVICE: string := "ro.product.device"

  /** The only properties the initializer ever writes. */
  const BUILD_KEYS: set<string> := {FINGERPRINT, DESCRIPTION, MODEL, DEVICE}

  /** One build identity: the values of the four build properties. */
  datatype Profile = Profile(fingerprint: string, description: string, model: string, device: string)

  const DEGASLTEZT: Profile := Profile(
    "samsung/degasltezt/degaslte:4.4.2/KOT49H/T235YZTU1AOD1:user/release-keys",
    "degasltezt-user 4.4.2 KOT49H T235YZTU1AOD1 release-keys",
    "SM-T235Y",
    "degasltezt")

  const DEGASLTEXX: Profile := Profile(
    "samsung/degasltexx/degaslte:4.4.2/KOT49H/T235XXU1AOD1:user/release-keys",
    "degasltexx-user 4.4.2 KOT49H T235XXU1AOD1 release-keys",
    "SM-T235",
    "degasltexx")

  type Write = (string, string)

  /** Reading a property with an empty default. */
  function GetProperty(props: map<string, string>, key: string): string {
    if key in props then props[key] else ""
  }

  /** `s.find(sub) != npos`: `sub` occurs somewhere in `s`. */
  predicate Contains(s: string, sub: string) {
    exists i :: 0 <= i <= |s| && OccursAt(s, sub, i)
  }

  predicate OccursAt(s: string, sub: string, i: nat) {
    i + |sub| <= |s| && s[i..i + |sub|] == sub
  }

  /** Every string that contains `sub + rest` contains `sub`. */
  lemma ContainsPrefix(s: string, sub: string, rest: string)
    requires Contains(s, sub + rest)
    ensures Contains(s, sub)
  {
    var i :| 0 <= i <= |s| && OccursAt(s, sub + rest, i);
    assert s[i..i + |sub|] == (sub + rest)[..|sub|];
    assert OccursAt(s, sub, i);
  }

  /** The build identity the bootloader identifier selects, if any; "T235Y" is looked for before "T235". */
  function SelectProfile(bootloader: string): (r: Option<Profile>)
    ensures Contains(bootloader, "T235Y") ==> r == Some(DEGASLTEZT)
    ensures !Contains(bootloader, "T235Y") && Contains(bootloader, "T235") ==> r == Some(DEGASLTEXX)
    ensures !Contains(bootloader, "T235") ==> r == None
  {
    if Contains(bootloader, "T235Y") then
      assert "T235" + "Y" == "T235Y";
      ContainsPrefix(bootloader, "T235", "Y");
      Some(DEGASLTEZT)
    else if Contains(bootloader, "T235") then Some(DEGASLTEXX)
    else None
  }

  /** The four writes of a build identity, in the order they are issued. */
  function ProfileWrites(p: Profile): seq<Write> {
    [(FINGERPRINT, p.fingerprint), (DESCRIPTION, p.description), (MODEL, p.model), (DEVICE, p.device)]
  }

  function WrittenKeys(ws: seq<Write>): set<string> {
    set w | w in ws :: w.0
  }

  /** The property writes the initializer issues for the given platform and bootloader. */
  function LoadWrites(platform: string, bootloader: string, target: string): (ws: seq<Write>)
    ensures platform != target ==> ws == []
    ensures WrittenKeys(ws) <= BUILD_KEYS
  {
    if platform != target then []
    else match SelectProfile(bootloader)
      case None => []
      case Some(p) => ProfileWrites(p)
  }

  /** The table after each write in turn has set its property. */
  function ApplyWrites(props: map<string, string>, ws: seq<Write>): (r: map<string, string>)
    ensures r.Keys == props.Keys + WrittenKeys(ws)
    ensures forall k :: k in props && k !in WrittenKeys(ws) ==> r[k] == props[k]
    decreases |ws|
  {
    if ws == [] then props
    else
      assert WrittenKeys(ws) == {ws[0].0} + WrittenKeys(ws[1..]);
      ApplyWrites(props[ws[0].0 := ws[0].1], ws[1..])
  }

  /** The table after the initializer has run. */
  function LoadProperties(props: map<string, string>, target: string): map<string, string> {
    ApplyWrites(props, LoadWrites(GetProperty(props, PLATFORM), GetProperty(props, BOOTLOADER), target))
  }

  /** The table with a build identity written over it. */
  function Stamp(props: map<string, string>, p: Profile): map<string, string> {
    props[FINGERPRINT := p.fingerprint][DESCRIPTION := p.description][MODEL := p.model][DEVICE := p.device]
  }

  lemma ApplyWritesCons(props: map<string, string>, w: Write, ws: seq<Write>)
    ensures ApplyWrites(props, [w] + ws) == ApplyWrites(props[w.0 := w.1], ws)
  {
    assert ([w] + ws)[1..] == ws;
  }

  lemma ApplyProfileWrites(props: map<string, string>, p: Profile)
    ensures ApplyWrites(props, ProfileWrites(p)) == Stamp(props, p)
  {
    var p1 := props[FINGERPRINT := p.fingerprint];
    var p2 := p1[DESCRIPTION := p.description];
    var p3 := p2[MODEL := p.model];
    ApplyWritesCons(props, (FINGERPRINT, p.fingerprint),
                    [(DESCRIPTION, p.description), (MODEL, p.model), (DEVICE, p.device)]);
    ApplyWritesCons(p1, (DESCRIPTION, p.description), [(MODEL, p.model), (DEVICE, p.device)]);
    ApplyWritesCons(p2, (MODEL, p.model), [(DEVICE, p.device)]);
    ApplyWritesCons(p3, (DEVICE, p.device), []);
  }

  /** Writing the same build identity twice is writing it once. */
  lemma StampIdempotent(props: map<string, string>, p: Profile)
    ensures Stamp(Stamp(props, p), p) == Stamp(props, p)
  {
  }

  /** On any other platform than the target (an absent platform reads as ""), nothing is written. */
  lemma OtherPlatformWritesNothing(props: map<string, string>, target: string)
    requires GetProperty(props, PLATFORM) != target
    ensures LoadProperties(props, target) == props
  {
  }

  /** A bootloader identifier containing "T235Y" yields exactly the degasltezt identity. */
  lemma ZtBootloaderYieldsZt(props: map<string, string>, target: string)
    requires GetProperty(props, PLATFORM) == target
    requires Contains(GetProperty(props, BOOTLOADER), "T235Y")
    ensures LoadProperties(props, target) == Stamp(props, DEGASLTEZT)
  {
    ApplyProfileWrites(props, DEGASLTEZT);
  }

  /** A bootloader identifier containing "T235" but not "T235Y" yields exactly the degasltexx identity. */
  lemma XxBootloaderYieldsXx(props: map<string, string>, target: string)
    requires GetProperty(props, PLATFORM) == target
    requires !Contains(GetProperty(props, BOOTLOADER), "T235Y")
    requires Contains(GetProperty(props, BOOTLOADER), "T235")
    ensures LoadProperties(props, target) == Stamp(props, DEGASLTEXX)
  {
    ApplyProfileWrites(props, DEGASLTEXX);
  }

  /** A bootloader identifier without "T235" leaves the table unchanged. */
  lemma UnknownBootloaderWritesNothing(props: map<string, string>, target: string)
    requires !Contains(GetProperty(props, BOOTLOADER), "T235")
    ensures LoadProperties(props, target) == props
  {
  }

  /** No property outside the four build properties is created, removed or changed. */
  lemma OnlyBuildKeysWritten(props: map<string, string>, target: string, k: string)
    requires k !in BUILD_KEYS
    ensures k in LoadProperties(props, target) <==> k in props
    ensures k in props ==> LoadProperties(props, target)[k] == props[k]
  {
  }

  /** Running the initializer a second time changes nothing. */
  lemma {:induction false} LoadPropertiesIdempotent(props: map<string, string>, target: string)
    ensures LoadProperties(LoadProperties(props, target), target) == LoadProperties(props, target)
  {
    var once := LoadProperties(props, target);
    OnlyBuildKeysWritten(props, target, PLATFORM);
    OnlyBuildKeysWritten(props, target, BOOTLOADER);
    assert GetProperty(once, PLATFORM) == GetProperty(props, PLATFORM);
    assert GetProperty(once, BOOTLOADER) == GetProperty(props, BOOTLOADER);
    if GetProperty(props, PLATFORM) == target {
      match SelectProfile(GetProperty(props, BOOTLOADER))
      case None =>
      case Some(p) =>
        ApplyProfileWrites(props, p);
        ApplyProfileWrites(once, p);
        StampIdempotent(props, p);
    }
  }

  /** The system property table. */
  class PropertyArea {
    var props: map<string, string>

    constructor (initial: map<string, string>)
      ensures props == initial
    {
      props := initial;
    }

    /** Sets `prop` to `value`: an existing property is updated in place, a missing one is added. */
    method Override(prop: string, value: string)
      modifies this
      ensures props == old(props)[prop := value]
      // Overriding with the value a property already has changes nothing,
      // so overriding twice with the same value is overriding once.
      ensures old(prop in props && props[prop] == value) ==> props == old(props)
    {
      if prop in props {
        props := props[prop := value];
      } else {
        props := props + map[prop := value];
      }
    }

    /** Writes the build identity the bootloader selects, on the target platform only. */
    method VendorLoadProperties(target: string)
      modifies this
      ensures props == LoadProperties(old(props), target)
    {
      var platform := GetProperty(props, PLATFORM);
      var bootloader := GetProperty(props, BOOTLOADER);
      if platform != target {
        return;
      }
      ghost var before := props;
      if Contains(bootloader, "T235Y") {
        Override(FINGERPRINT, DEGASLTEZT.fingerprint);
        Override(DESCRIPTION, DEGASLTEZT.description);
        Override(MODEL, DEGASLTEZT.model);
        Override(DEVICE, DEGASLTEZT.device);
        ApplyProfileWrites(before, DEGASLTEZT);
      } else if Contains(bootloader, "T235") {
        Override(FINGERPRINT, DEGASLTEXX.fingerprint);
        Override(DESCRIPTION, DEGASLTEXX.description);
        Override(MODEL, DEGASLTEXX.model);
        Override(DEVICE, DEGASLTEXX.device);
        ApplyProfileWrites(before, DEGASLTEXX);
      }
    }
  }
}
