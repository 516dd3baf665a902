/**
 * KeyboardStateFactory.create: which AbstractKeyboardState subclass a device
 * gets, chosen from Build.BRAND, Build.MODEL and Build.VERSION.SDK_INT.
 */
module KeyboardStateFactory {
  import opened Options
  import Strategies

  const SMARTISAN: string := "SMARTISAN"
  const MIX2: string := "MIX 2"
  const VIVOX21A: string := "vivo X21A"
  /** The first SDK level at which a MIX 2 gets the Smartisan variant (Android 8.0). */
  const MIX2_MIN_SDK: int := 26

  /** The subclass the factory instantiates. */
  datatype Variant = KeyboardStateSmartianOS | KeyboardStateVivoX21OS | KeyboardStateNormal

  /** sub occurs in s at position i. */
  ghost predicate OccursAt(s: string, sub: string, i: int)
  {
    0 <= i && i + |sub| <= |s| && s[i..i + |sub|] == sub
  }

  /** String.contains, by scanning from the front. */
  function Contains(s: string, sub: string): bool
    decreases |s|
  {
    |sub| <= |s| && (s[..|sub|] == sub || Contains(s[1..], sub))
  }

  /** The scan finds sub exactly when it occurs somewhere in s. */
  lemma {:induction false} ContainsIffOccurs(s: string, sub: string)
    ensures Contains(s, sub) <==> exists i :: OccursAt(s, sub, i)
    decreases |s|
  {
    if |sub| <= |s| {
      if s[..|sub|] == sub {
        assert OccursAt(s, sub, 0);
      } else {
        ContainsIffOccurs(s[1..], sub);
        if Contains(s[1..], sub) {
          var i :| OccursAt(s[1..], sub, i);
          assert s[i + 1..i + 1 + |sub|] == s[1..][i..i + |sub|];
          assert OccursAt(s, sub, i + 1);
        }
        if exists i :: OccursAt(s, sub, i) {
          var i :| OccursAt(s, sub, i);
          assert i != 0;
          assert s[1..][i - 1..i - 1 + |sub|] == s[i..i + |sub|];
          assert OccursAt(s[1..], sub, i - 1);
        }
      }
    } else {
      assert forall i :: !OccursAt(s, sub, i);
    }
  }

  /** The Smartisan test, which is tried first. */
  predicate IsSmartisanLike(brand: string, model: string, sdkInt: int)
  {
    Contains(brand, SMARTISAN) || (model == MIX2 && sdkInt >= MIX2_MIN_SDK)
  }

  /** The variant selected for a device; every device gets one. */
  function Create(brand: string, model: string, sdkInt: int): (r: Variant)
    ensures r == KeyboardStateSmartianOS <==>
      Contains(brand, SMARTISAN) || (model == MIX2 && sdkInt >= MIX2_MIN_SDK)
    ensures r == KeyboardStateVivoX21OS <==>
      model == VIVOX21A && !Contains(brand, SMARTISAN)
    ensures r == KeyboardStateNormal <==>
      !Contains(brand, SMARTISAN) && model != VIVOX21A && (model != MIX2 || sdkInt < MIX2_MIN_SDK)
  {
    if IsSmartisanLike(brand, model, sdkInt) then KeyboardStateSmartianOS
    else if model == VIVOX21A then KeyboardStateVivoX21OS
    else KeyboardStateNormal
  }

  /** The correction strategy of the variant; the Smartisan class is not part of this model. */
  function StrategyOf(v: Variant): (r: Option<Strategies.Strategy>)
    ensures r.None? <==> v == KeyboardStateSmartianOS
  {
    match v
    case KeyboardStateSmartianOS => None
    case KeyboardStateVivoX21OS => Some(Strategies.VivoX21OS)
    case KeyboardStateNormal => Some(Strategies.Normal)
  }

  /** A MIX 2 below SDK 26 from any other brand falls through to Normal. */
  lemma OldMix2IsNormal(brand: string, sdkInt: int)
    requires !Contains(brand, SMARTISAN) && sdkInt < MIX2_MIN_SDK
    ensures Create(brand, MIX2, sdkInt) == KeyboardStateNormal
  {
  }

  /** The brand test wins over the Vivo model test. */
  lemma SmartisanBrandWinsOverVivoModel(brand: string, sdkInt: int)
    requires exists i :: OccursAt(brand, SMARTISAN, i)
    ensures Create(brand, VIVOX21A, sdkInt) == KeyboardStateSmartianOS
  {
    ContainsIffOccurs(brand, SMARTISAN);
  }

  /** A brand without "SMARTISAN" anywhere in it, with any other model, degrades silently to Normal. */
  lemma UnknownVendorIsNormal(brand: string, model: string, sdkInt: int)
    requires !(exists i :: OccursAt(brand, SMARTISAN, i))
    requires model != MIX2 && model != VIVOX21A
    ensures Create(brand, model, sdkInt) == KeyboardStateNormal
  {
    ContainsIffOccurs(brand, SMARTISAN);
  }

  /** The brand test is containment, not equality: a longer brand string still matches. */
  lemma BrandTestIsContainment(prefix: string, suffix: string, model: string, sdkInt: int)
    ensures Create(prefix + SMARTISAN + suffix, model, sdkInt) == KeyboardStateSmartianOS
  {
    var b := prefix + SMARTISAN + suffix;
    assert b[|prefix|..|prefix| + |SMARTISAN|] == SMARTISAN;
    assert OccursAt(b, SMARTISAN, |prefix|);
    ContainsIffOccurs(b, SMARTISAN);
  }
}
