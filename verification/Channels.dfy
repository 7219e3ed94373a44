/** The first-fit allocator of device channels. */
module Channels {
  import opened Base

  /** One entry of a server's drive list; `volume` is absent when the API returns no drive object. */
  datatype Entry = Entry(bootOrder: int, channel: string, device: string, volume: Option<Id>)

  const SLOTS: nat := 1 + 202 * 3

  // ----- Printing -----

  const DIGITS := "0123456789"

  /** Decimal notation, as %d prints it. */
  function Dec(n: nat): (s: string)
    ensures s != [] && forall c :: c in s ==> c in DIGITS
  {
    if n < 10 then [DIGITS[n]] else Dec(n / 10) + [DIGITS[n % 10]]
  }

  lemma {:induction false} DecInjective(m: nat, n: nat)
    requires Dec(m) == Dec(n)
    ensures m == n
  {
    assert Dec(m)[|Dec(m)| - 1] == DIGITS[m % 10] && Dec(n)[|Dec(n)| - 1] == DIGITS[n % 10];
    assert forall i, j :: 0 <= i < j < 10 ==> DIGITS[i] != DIGITS[j];
    if m >= 10 && n >= 10 {
      assert Dec(m)[..|Dec(m)| - 1] == Dec(m / 10) && Dec(n)[..|Dec(n)| - 1] == Dec(n / 10);
      DecInjective(m / 10, n / 10);
    } else {
      assert (m >= 10 <==> |Dec(m)| > 1) && (n >= 10 <==> |Dec(n)| > 1);
    }
  }

  /** What a decimal numeral stands for. */
  function Value(s: string): int {
    if s == "" then 0 else 10 * Value(s[..|s| - 1]) + (s[|s| - 1] as int - '0' as int)
  }

  /** It is the number itself that is printed. */
  lemma {:induction false} DecReads(n: nat)
    ensures Value(Dec(n)) == n
  {
    assert forall d :: 0 <= d < 10 ==> DIGITS[d] as int - '0' as int == d;
    if n < 10 {
      assert Dec(n)[..0] == "";
    } else {
      DecReads(n / 10);
      assert Dec(n)[..|Dec(n)| - 1] == Dec(n / 10);
    }
  }

  function Show(controller: nat, unit: nat): string {
    Dec(controller) + ":" + Dec(unit)
  }

  lemma ColonAt(controller: nat, unit: nat, i: nat)
    requires i <= |Dec(controller)|
    ensures Show(controller, unit)[i] == ':' <==> i == |Dec(controller)|
  {
    if i < |Dec(controller)| { assert Show(controller, unit)[i] == Dec(controller)[i]; }
  }

  /** Distinct slots print to distinct strings. */
  lemma ShowInjective(c1: nat, u1: nat, c2: nat, u2: nat)
    requires Show(c1, u1) == Show(c2, u2)
    ensures c1 == c2 && u1 == u2
  {
    var n1, n2 := |Dec(c1)|, |Dec(c2)|;
    ColonAt(c1, u1, if n1 < n2 then n1 else n2);
    ColonAt(c2, u2, if n1 < n2 then n1 else n2);
    assert Show(c1, u1)[..n1] == Dec(c1) && Show(c2, u2)[..n2] == Dec(c2);
    assert Show(c1, u1)[n1 + 1..] == Dec(u1) && Show(c2, u2)[n2 + 1..] == Dec(u2);
    DecInjective(c1, c2);
    DecInjective(u1, u2);
  }

  // ----- First fit over any list of slots -----

  function Used(drives: seq<Entry>): set<string> {
    set i | 0 <= i < |drives| :: drives[i].channel
  }

  /** The first slot from `i` on that is not in use, or the last one. */
  function FirstFit(slots: seq<string>, used: set<string>, i: nat): string
    requires i < |slots|
    decreases |slots| - i
  {
    if slots[i] !in used || i == |slots| - 1 then slots[i] else FirstFit(slots, used, i + 1)
  }

  lemma {:induction false} FirstFitIs(slots: seq<string>, used: set<string>, i: nat) returns (k: nat)
    requires i < |slots|
    ensures i <= k < |slots| && FirstFit(slots, used, i) == slots[k]
    ensures forall j :: i <= j < k ==> slots[j] in used
    ensures slots[k] in used ==> k == |slots| - 1
    decreases |slots| - i
  {
    if slots[i] !in used || i == |slots| - 1 { k := i; } else { k := FirstFitIs(slots, used, i + 1); }
  }

  /** First fit is complete: the result is unused exactly when a slot is, and then it is the first. */
  lemma FirstFitComplete(slots: seq<string>, used: set<string>)
    requires slots != []
    ensures FirstFit(slots, used, 0) !in used <==> exists i :: 0 <= i < |slots| && slots[i] !in used
    ensures exists k :: 0 <= k < |slots| && FirstFit(slots, used, 0) == slots[k] && forall j :: 0 <= j < k ==> slots[j] in used
  {
    var k := FirstFitIs(slots, used, 0);
  }

  // ----- The 607 slots -----

  /** 0:2, then units 0 to 2 of controllers 1 to 202. */
  function Controller(i: nat): nat { if i == 0 then 0 else 1 + (i - 1) / 3 }

  function Unit(i: nat): nat { if i == 0 then 2 else (i - 1) % 3 }

  function Channels(): (slots: seq<string>)
    ensures |slots| == SLOTS && forall i :: 0 <= i < SLOTS ==> slots[i] == Show(Controller(i), Unit(i))
  {
    seq(SLOTS, i requires 0 <= i < SLOTS => Show(Controller(i), Unit(i)))
  }

  lemma ChannelsDistinct(i: nat, j: nat)
    requires i < SLOTS && j < SLOTS && i != j
    ensures Channels()[i] != Channels()[j]
  {
    if Channels()[i] == Channels()[j] { ShowInjective(Controller(i), Unit(i), Controller(j), Unit(j)); }
  }

  function NextChannel(drives: seq<Entry>): string {
    FirstFit(Channels(), Used(drives), 0)
  }

  ghost predicate HasRoom(drives: seq<Entry>) {
    exists i :: 0 <= i < SLOTS && Channels()[i] !in Used(drives)
  }

  /** The allocator is complete: it returns an unused channel exactly when one of the 607 slots is
      free, and then it is the first free one in order. */
  lemma NextChannelComplete(drives: seq<Entry>)
    ensures NextChannel(drives) !in Used(drives) <==> HasRoom(drives)
    ensures exists k :: 0 <= k < SLOTS && NextChannel(drives) == Channels()[k]
                        && forall j :: 0 <= j < k ==> Channels()[j] in Used(drives)
  {
    FirstFitComplete(Channels(), Used(drives));
  }

  /** A channel for data disks is never 0:0, 0:1 or on unit 3, whatever the list holds. */
  lemma NextChannelIsDataSlot(drives: seq<Entry>, controller: nat, unit: nat)
    requires NextChannel(drives) == Show(controller, unit)
    ensures unit < 3 && controller <= 202 && (controller == 0 ==> unit == 2)
  {
    var k := FirstFitIs(Channels(), Used(drives), 0);
    ShowInjective(controller, unit, Controller(k), Unit(k));
  }

  /** Distinct strings, counted: a list without repetitions has as many elements as positions. */
  lemma {:induction false} DistinctSize(s: seq<string>)
    requires forall i, j :: 0 <= i < j < |s| ==> s[i] != s[j]
    ensures |set x | x in s| == |s|
  {
    if s != [] {
      var front, last := s[..|s| - 1], s[|s| - 1];
      DistinctSize(front);
      assert (set x | x in s) == (set x | x in front) + {last};
    }
  }

  lemma {:induction false} UsedSize(drives: seq<Entry>)
    ensures |Used(drives)| <= |drives|
  {
    if drives != [] {
      var front := drives[..|drives| - 1];
      UsedSize(front);
      assert Used(drives) == Used(front) + {drives[|drives| - 1].channel};
    }
  }

  lemma SubsetSize(a: set<string>, b: set<string>)
    requires a <= b
    ensures |a| <= |b|
  {
    assert b == a + (b - a);
  }

  /** Pigeonhole: a list of fewer than 607 drives has room. */
  lemma FewDrivesHaveRoom(drives: seq<Entry>)
    requires |drives| < SLOTS
    ensures HasRoom(drives)
  {
    if !HasRoom(drives) {
      forall i, j | 0 <= i < j < SLOTS ensures Channels()[i] != Channels()[j] { ChannelsDistinct(i, j); }
      DistinctSize(Channels());
      UsedSize(drives);
      SubsetSize((set x | x in Channels()), Used(drives));
    }
  }

  lemma FirstAndLastSlot()
    ensures Channels()[0] == "0:2" && Channels()[SLOTS - 1] == "202:2"
  {
    assert Dec(202) == Dec(20) + "2" && Dec(20) == Dec(2) + "0";
  }

  /** What is left to return once the slots before `i` are known to be in use. */
  function Rest(slots: seq<string>, used: set<string>, i: nat): string
    requires slots != []
  {
    if i < |slots| then FirstFit(slots, used, i) else slots[|slots| - 1]
  }

  lemma RestStep(slots: seq<string>, used: set<string>, i: nat)
    requires i < |slots|
    ensures Rest(slots, used, i) == if slots[i] !in used then slots[i] else Rest(slots, used, i + 1)
  {
  }

  function FirstSlot(controller: nat): nat
    requires 1 <= controller
  {
    1 + (controller - 1) * 3
  }

  /** The three data units of a controller are consecutive slots. */
  predicate UnitsOf(slots: seq<string>, controller: nat)
    requires 1 <= controller
  {
    var i := FirstSlot(controller);
    i + 3 <= |slots| && slots[i] == Show(controller, 0) && slots[i + 1] == Show(controller, 1) && slots[i + 2] == Show(controller, 2)
  }

  lemma ChannelsByController(controller: nat)
    requires 1 <= controller <= 202
    ensures UnitsOf(Channels(), controller)
  {
    var i := FirstSlot(controller);
    assert Controller(i) == controller && Unit(i) == 0;
    assert Controller(i + 1) == controller && Unit(i + 1) == 1;
    assert Controller(i + 2) == controller && Unit(i + 2) == 2;
  }

  /** findNextDeviceChannel. */
  method FindNextDeviceChannel(drives: seq<Entry>) returns (channel: string)
    ensures channel == NextChannel(drives)
  {
    var usedChannels := UsedChannels(drives);
    ghost var slots := Channels();
    FirstAndLastSlot();
    RestStep(slots, usedChannels, 0);
    if "0:2" !in usedChannels { return "0:2"; }
    for controller := 1 to 203
      invariant NextChannel(drives) == Rest(slots, usedChannels, FirstSlot(controller))
    {
      ChannelsByController(controller);
      var found;
      found, channel := TryUnits(usedChannels, controller, slots);
      if found { return; }
    }
    return "202:2";
  }

  /** The inner loop: the three data units of one controller. */
  method TryUnits(usedChannels: set<string>, controller: nat, ghost slots: seq<string>) returns (found: bool, channel: string)
    requires 1 <= controller && UnitsOf(slots, controller)
    ensures Rest(slots, usedChannels, FirstSlot(controller)) ==
            if found then channel else Rest(slots, usedChannels, FirstSlot(controller + 1))
  {
    ghost var i := FirstSlot(controller);
    for unit := 0 to 3
      invariant Rest(slots, usedChannels, i) == Rest(slots, usedChannels, i + unit)
    {
      channel := Show(controller, unit);
      assert slots[i + unit] == channel;
      RestStep(slots, usedChannels, i + unit);
      if channel !in usedChannels { return true, channel; }
    }
    return false, "";
  }

  method UsedChannels(drives: seq<Entry>) returns (usedChannels: set<string>)
    ensures usedChannels == Used(drives)
  {
    usedChannels := {};
    for i := 0 to |drives|
      invariant usedChannels == Used(drives[..i])
    {
      assert Used(drives[..i + 1]) == Used(drives[..i]) + {drives[i].channel} by {
        assert forall j :: 0 <= j < i ==> drives[..i + 1][j] == drives[..i][j];
      }
      usedChannels := usedChannels + {drives[i].channel};
    }
    assert drives[..|drives|] == drives;
  }
}
