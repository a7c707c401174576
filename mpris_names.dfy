/**
 * Bus names of MPRIS media players (MPRIS D-Bus Interface Specification v2.2,
 * "Bus Name Policy"): which names the applet watches, and which of them name
 * a player instance rather than the player's master name.
 */
module MprisNames {
  import opened Strings

  /** Every MPRIS player owns a bus name that starts with this prefix. */
  const MprisPrefix: string := "org" + "." + "mpris" + "." + "MediaPlayer2" + "."

  /** VLC names its instances `org.mpris.MediaPlayer2.vlc-<digits>`. */
  const VlcInstancePrefix: string := MprisPrefix + "vlc-"

  predicate IsDigit(c: char) { '0' <= c <= '9' }

  /** The name test `/^org\.mpris\.MediaPlayer2\./` applied to every bus name. */
  predicate IsMprisName(name: string) {
    StartsWith(name, MprisPrefix)
  }

  /** The VLC exception `/^org\.mpris\.MediaPlayer2\.vlc-\d+$/`. */
  predicate IsVlcInstance(busName: string) {
    && StartsWith(busName, VlcInstancePrefix)
    && |busName| > |VlcInstancePrefix|
    && forall i | |VlcInstancePrefix| <= i < |busName| :: IsDigit(busName[i])
  }

  /**
   * `_isInstance`: a name is an instance name when it has more than four
   * dot-separated segments, that is at least four dots, or is a VLC instance name.
   */
  function IsInstance(busName: string): (b: bool)
    ensures b <==> Count(busName, '.') >= 4 || IsVlcInstance(busName)
  {
    SplitCount(busName, '.');
    |Split(busName, '.')| > 4 || IsVlcInstance(busName)
  }

  /** Three dot-free segments, each followed by a dot. */
  lemma ThreeDots(a: string, b: string, c: string)
    requires '.' !in a && '.' !in b && '.' !in c
    ensures Count(a + "." + b + "." + c + ".", '.') == 3
  {
    var dot := ".";
    assert Count(dot, '.') == 1;
    CountAbsent(a, '.');
    CountAbsent(b, '.');
    CountAbsent(c, '.');
    CountAppend(a, dot, '.');
    CountAppend(a + dot, b, '.');
    CountAppend(a + dot + b, dot, '.');
    CountAppend(a + dot + b + dot, c, '.');
    CountAppend(a + dot + b + dot + c, dot, '.');
  }

  /** The prefix itself holds three of the four dots an instance name needs. */
  lemma PrefixDots()
    ensures Count(MprisPrefix, '.') == 3
  {
    ThreeDots("org", "mpris", "MediaPlayer2");
  }

  /**
   * A master name `org.mpris.MediaPlayer2.<player>` (four segments) is an
   * instance name only in VLC's dash-and-digits form.
   */
  lemma MasterName(player: string)
    requires '.' !in player
    ensures IsInstance(MprisPrefix + player) <==> IsVlcInstance(MprisPrefix + player)
  {
    PrefixDots();
    CountAbsent(player, '.');
    CountAppend(MprisPrefix, player, '.');
  }

  /** `org.mpris.MediaPlayer2.<player>.<instance>` is always an instance name. */
  lemma InstanceName(player: string, instance: string)
    ensures IsInstance(MprisPrefix + player + "." + instance)
  {
    PrefixDots();
    CountAppend(MprisPrefix, player, '.');
    CountAppend(MprisPrefix + player, ".", '.');
    CountAppend(MprisPrefix + player + ".", instance, '.');
  }

  /** VLC's form needs at least one digit after the dash, and digits only. */
  lemma VlcName(suffix: string)
    ensures IsVlcInstance(VlcInstancePrefix + suffix) <==>
              suffix != [] && forall i | 0 <= i < |suffix| :: IsDigit(suffix[i])
  {
    var n := VlcInstancePrefix + suffix;
    assert n[..|VlcInstancePrefix|] == VlcInstancePrefix;
    forall i | 0 <= i < |suffix| ensures n[|VlcInstancePrefix| + i] == suffix[i] { }
    if IsVlcInstance(n) {
      forall i | 0 <= i < |suffix| ensures IsDigit(suffix[i]) {
        assert IsDigit(n[|VlcInstancePrefix| + i]);
      }
    }
  }
}
