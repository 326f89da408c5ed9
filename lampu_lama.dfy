/** The older signal phase machine of LampuLaluLintas.js: the active arm goes green, then yellow,
    then red, and the next arm goes green at once; there is no all-red interval. */
module LampuLama {
  import opened Routing
  import opened Lampu

  /** Which `setTimeout` callback of the current phase is waiting to run. */
  datatype Timer = Idle | Green | Yellow

  class LampuLama {
    const urutan: seq<Arm>
    var indexAktif: nat
    var status: map<Arm, Color>
    var pending: Timer

    predicate Valid()
      reads this
    {
      && urutan == Urutan
      && indexAktif < |urutan|
      && status.Keys == AllArms
      && match pending
         case Idle => status == AllRedStatus
         case Green => status == PhaseStatus(urutan[indexAktif], Hijau)
         case Yellow => status == PhaseStatus(urutan[indexAktif], Kuning)
    }

    /** At most one arm shows anything but red, and it is the active arm. */
    lemma AtMostOneNonRed()
      requires Valid()
      ensures NonRed(status) <= {urutan[indexAktif]}
    {
      match pending
      case Idle => PhaseNonRed(urutan[indexAktif], Merah);
      case Green => PhaseNonRed(urutan[indexAktif], Hijau);
      case Yellow => PhaseNonRed(urutan[indexAktif], Kuning);
    }

    constructor ()
      ensures Valid()
      ensures indexAktif == 0 && urutan[indexAktif] == Utara
      ensures status == AllRedStatus && pending == Idle
    {
      urutan := Urutan;
      indexAktif := 0;
      status := AllRedStatus;
      pending := Idle;
    }

    /** `update`: every arm red, then the active arm green, and the green timer is set. */
    method Update()
      requires Valid()
      modifies this
      ensures Valid()
      ensures indexAktif == old(indexAktif)
      ensures status == PhaseStatus(urutan[indexAktif], Hijau)
      ensures NonRed(status) == {urutan[indexAktif]}
      ensures pending == Green
    {
      var arahAktif := urutan[indexAktif];
      var s := Paint(status, urutan, Merah);
      PaintAllRed(status);
      status := s[arahAktif := Hijau];
      pending := Green;
      PhaseNonRed(arahAktif, Hijau);
    }

    /** The green timer: the active arm turns yellow. */
    method GreenElapsed()
      requires Valid() && pending == Green
      modifies this
      ensures Valid()
      ensures indexAktif == old(indexAktif)
      ensures status == old(status)[urutan[indexAktif] := Kuning]
      ensures pending == Yellow
    {
      var arahAktif := urutan[indexAktif];
      status := status[arahAktif := Kuning];
      pending := Yellow;
    }

    /** The yellow timer: the active arm turns red, the next arm becomes active and goes green
        straight away. */
    method YellowElapsed()
      requires Valid() && pending == Yellow
      modifies this
      ensures Valid()
      ensures indexAktif == NextIndex(old(indexAktif))
      ensures urutan[indexAktif] == Next(old(urutan[indexAktif]))
      ensures status == PhaseStatus(urutan[indexAktif], Hijau)
      ensures pending == Green
    {
      var arahAktif := urutan[indexAktif];
      status := status[arahAktif := Merah];
      pending := Idle;
      indexAktif := (indexAktif + 1) % |urutan|;
      Update();
    }
  }
}
