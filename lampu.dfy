/** The signal phase machine of js/LampuLaluLintas.js: one arm at a time goes green, then yellow,
    then every arm shows red for the all-red interval before the next arm of the clockwise order
    takes its turn. The three `setTimeout` callbacks of `update` are the methods `GreenElapsed`,
    `YellowElapsed` and `AllRedElapsed`; which of them is pending is the field `pending`. */
module Lampu {
  import opened Routing

  datatype Color = Merah | Kuning | Hijau

  /** `urutan`: the clockwise order utara, timur, selatan, barat. */
  const Urutan: seq<Arm> := [Utara, Timur, Selatan, Barat]

  const AllArms: set<Arm> := {Utara, Timur, Selatan, Barat}

  /** The map after `for (arah of arms) status[arah] = c`, written from the last assignment back. */
  function SetAll(s: map<Arm, Color>, arms: seq<Arm>, c: Color): (r: map<Arm, Color>)
    ensures r.Keys == s.Keys + set a | a in arms
    ensures forall a :: a in arms ==> r[a] == c
    ensures forall a :: a in s && a !in arms ==> r[a] == s[a]
  {
    if arms == [] then s
    else SetAll(s, arms[..|arms| - 1], c)[arms[|arms| - 1] := c]
  }

  /** The `for (let arah of this.urutan)` loop, on a copy of the status map. */
  method Paint(s: map<Arm, Color>, arms: seq<Arm>, c: Color) returns (r: map<Arm, Color>)
    ensures r == SetAll(s, arms, c)
  {
    r := s;
    var i := 0;
    while i < |arms|
      invariant 0 <= i <= |arms|
      invariant r == SetAll(s, arms[..i], c)
    {
      assert arms[..i + 1][..i] == arms[..i];
      r := r[arms[i] := c];
      i := i + 1;
    }
    assert arms[..|arms|] == arms;
  }

  /** Every arm red. */
  const AllRedStatus: map<Arm, Color> := map[Utara := Merah, Timur := Merah, Selatan := Merah, Barat := Merah]

  /** Every arm red except `active`, which shows `c`. */
  function PhaseStatus(active: Arm, c: Color): map<Arm, Color> {
    AllRedStatus[active := c]
  }

  /** The arms that do not show red. */
  function NonRed(s: map<Arm, Color>): set<Arm> {
    set a | a in s && s[a] != Merah
  }

  /** Painting the whole order red gives the all-red status, whatever the arms showed before. */
  lemma PaintAllRed(s: map<Arm, Color>)
    requires s.Keys == AllArms
    ensures SetAll(s, Urutan, Merah) == AllRedStatus
  {
    var r := SetAll(s, Urutan, Merah);
    forall a: Arm
      ensures a in Urutan && a in r && a in AllRedStatus && r[a] == AllRedStatus[a]
    {
      assert a == Urutan[0] || a == Urutan[1] || a == Urutan[2] || a == Urutan[3];
    }
    assert r.Keys == AllRedStatus.Keys;
  }

  /** A phase status names every arm. */
  lemma PhaseKeys(active: Arm, c: Color)
    ensures PhaseStatus(active, c).Keys == AllArms
  {
  }

  /** In a phase exactly the active arm is non-red while it is green or yellow, and no arm is
      non-red in the all-red interval. */
  lemma PhaseNonRed(active: Arm, c: Color)
    ensures NonRed(PhaseStatus(active, c)) == (if c == Merah then {} else {active})
  {
    var s := PhaseStatus(active, c);
    if c == Merah {
      assert forall a :: a in s ==> s[a] == Merah;
    } else {
      assert active in NonRed(s);
      assert forall a :: a in NonRed(s) ==> a == active;
    }
  }

  /** `(indexAktif + 1) % urutan.length`. */
  function NextIndex(i: nat): (r: nat)
    requires i < |Urutan|
    ensures r < |Urutan|
    ensures Urutan[r] == Next(Urutan[i])
  {
    (i + 1) % |Urutan|
  }

  /** Four phases bring the active arm back, having given each arm one turn. */
  lemma FourPhasesCycle(i: nat)
    requires i < |Urutan|
    ensures NextIndex(NextIndex(NextIndex(NextIndex(i)))) == i
    ensures {Urutan[i], Urutan[NextIndex(i)], Urutan[NextIndex(NextIndex(i))],
             Urutan[NextIndex(NextIndex(NextIndex(i)))]} == AllArms
  {
  }

  /** Which `setTimeout` callback of the current phase is waiting to run. */
  datatype Pending = NotStarted | GreenTimer | YellowTimer | AllRedTimer

  class Lampu {
    const urutan: seq<Arm>
    var indexAktif: nat
    var status: map<Arm, Color>
    var pending: Pending

    /** The status matches the pending timer, and so at most one arm is non-red. */
    predicate Valid()
      reads this
    {
      && urutan == Urutan
      && indexAktif < |urutan|
      && status.Keys == AllArms
      && match pending
         case NotStarted => status == AllRedStatus
         case GreenTimer => status == PhaseStatus(urutan[indexAktif], Hijau)
         case YellowTimer => status == PhaseStatus(urutan[indexAktif], Kuning)
         case AllRedTimer => status == AllRedStatus
    }

    /** At most one arm shows anything but red, and it is the active arm. */
    lemma AtMostOneNonRed()
      requires Valid()
      ensures NonRed(status) <= {urutan[indexAktif]}
    {
      match pending
      case NotStarted => PhaseNonRed(urutan[indexAktif], Merah);
      case GreenTimer => PhaseNonRed(urutan[indexAktif], Hijau);
      case YellowTimer => PhaseNonRed(urutan[indexAktif], Kuning);
      case AllRedTimer => PhaseNonRed(urutan[indexAktif], Merah);
    }

    /** Every arm starts red, with utara (index 0) next to go green. */
    constructor ()
      ensures Valid()
      ensures indexAktif == 0 && urutan[indexAktif] == Utara
      ensures status == AllRedStatus && pending == NotStarted
    {
      urutan := Urutan;
      indexAktif := 0;
      status := AllRedStatus;
      pending := NotStarted;
    }

    /** `update`: every arm red, then the active arm green, and the green timer is set. */
    method Update()
      requires Valid()
      modifies this
      ensures Valid()
      ensures indexAktif == old(indexAktif)
      ensures status == PhaseStatus(urutan[indexAktif], Hijau)
      ensures NonRed(status) == {urutan[indexAktif]}
      ensures pending == GreenTimer
    {
      var arahAktif := urutan[indexAktif];
      var s := Paint(status, urutan, Merah);
      PaintAllRed(status);
      status := s[arahAktif := Hijau];
      pending := GreenTimer;
      PhaseKeys(arahAktif, Hijau);
      PhaseNonRed(arahAktif, Hijau);
    }

    /** The green timer: only the active arm changes, from green to yellow. */
    method GreenElapsed()
      requires Valid() && pending == GreenTimer
      modifies this
      ensures Valid()
      ensures indexAktif == old(indexAktif)
      ensures status == old(status)[urutan[indexAktif] := Kuning]
      ensures forall a :: a in status && a != urutan[indexAktif] ==> status[a] == old(status)[a]
      ensures pending == YellowTimer
    {
      var arahAktif := urutan[indexAktif];
      status := status[arahAktif := Kuning];
      pending := YellowTimer;
      PhaseKeys(arahAktif, Kuning);
    }

    /** The yellow timer: every arm red (the all-red interval). */
    method YellowElapsed()
      requires Valid() && pending == YellowTimer
      modifies this
      ensures Valid()
      ensures indexAktif == old(indexAktif)
      ensures status == AllRedStatus && NonRed(status) == {}
      ensures pending == AllRedTimer
    {
      var s := Paint(status, urutan, Merah);
      PaintAllRed(status);
      status := s;
      pending := AllRedTimer;
      PhaseNonRed(urutan[indexAktif], Merah);
    }

    /** The all-red timer: the next arm of the order becomes active and its phase starts. */
    method AllRedElapsed()
      requires Valid() && pending == AllRedTimer
      modifies this
      ensures Valid()
      ensures indexAktif == NextIndex(old(indexAktif))
      ensures urutan[indexAktif] == Next(old(urutan[indexAktif]))
      ensures status == PhaseStatus(urutan[indexAktif], Hijau)
      ensures pending == GreenTimer
    {
      indexAktif := (indexAktif + 1) % |urutan|;
      Update();
    }
  }
}
