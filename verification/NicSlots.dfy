/**
 PCI slots for data interfaces (`gen_nics`, `nic_provision_delay` and the bridges of `start` in
 common/vrnetlab.py), and how the ONTAP launcher makes room for its management interface
 (netapp/ontap/docker/launch.py).
 */
module NicSlots {
  import opened Text

  const NICS_PER_PCI_BUS: nat := 26
  const MGMT_PCI_ADDR: nat := 3

  /** `shifted` for images that skip the first slot (vEOS). */
  datatype Layout = Layout(start: nat, count: nat, shifted: bool)
  {
    /** One past the last interface index. */
    function End(): nat {
      start + count
    }
  }

  datatype Nic = Nic(index: nat, placeholder: bool, bus: nat, addr: nat)

  /** The bus and address of the k-th interface, counting from one. */
  function Bus(layout: Layout, k: nat): nat {
    (if layout.shifted then k + 1 else k) / NICS_PER_PCI_BUS + 1
  }

  function Addr(layout: Layout, k: nat): nat {
    (if layout.shifted then k + 1 else k) % NICS_PER_PCI_BUS + 1
  }

  /** `math.ceil(num_nics / nics_per_pci_bus)` bridges, numbered from one. */
  function Bridges(count: nat): nat {
    (count + NICS_PER_PCI_BUS - 1) / NICS_PER_PCI_BUS
  }

  predicate Before(a: Nic, b: Nic) {
    a.bus < b.bus || (a.bus == b.bus && a.addr < b.addr)
  }

  /** The interface of an index: its slot is the place of the index in the range. */
  function NicFor(layout: Layout, present: set<nat>, index: nat): Nic
    requires layout.start <= index
  {
    var k := index - layout.start + 1;
    Nic(index, index !in present, Bus(layout, k), Addr(layout, k))
  }

  /** The interfaces from index `i` on: a real one, a placeholder below the highest, or none. */
  function NicsFrom(layout: Layout, highest: nat, present: set<nat>, i: nat): seq<Nic>
    requires layout.start <= i <= layout.End()
    decreases layout.End() - i
  {
    if i == layout.End() then []
    else
      (if i in present || i < highest then [NicFor(layout, present, i)] else [])
      + NicsFrom(layout, highest, present, i + 1)
  }

  function Nics(layout: Layout, highest: nat, present: set<nat>): seq<Nic> {
    NicsFrom(layout, highest, present, layout.start)
  }

  /** The highest interface seen when the wait is over; 0 when there is none to wait for. */
  ghost predicate IsHighest(layout: Layout, provisioned: nat, present: set<nat>, highest: nat) {
    if provisioned > 0 && exists i :: i in present && layout.start <= i < layout.End() then
      && highest in present && layout.start <= highest < layout.End()
      && forall i :: i in present && layout.start <= i < layout.End() ==> i <= highest
    else highest == 0
  }

  // ----- slot arithmetic

  lemma SlotDistinct(layout: Layout, j: nat, k: nat)
    requires j < k
    ensures 1 <= Addr(layout, k) <= NICS_PER_PCI_BUS && Bus(layout, k) >= 1
    ensures Bus(layout, j) < Bus(layout, k) || (Bus(layout, j) == Bus(layout, k) && Addr(layout, j) < Addr(layout, k))
  {
    var x := if layout.shifted then j + 1 else j;
    var y := if layout.shifted then k + 1 else k;
    assert x == x / NICS_PER_PCI_BUS * NICS_PER_PCI_BUS + x % NICS_PER_PCI_BUS;
    assert y == y / NICS_PER_PCI_BUS * NICS_PER_PCI_BUS + y % NICS_PER_PCI_BUS;
  }

  /** The last slot's bus has a bridge, unless the interfaces fill the buses to the brim. */
  predicate Bridged(layout: Layout) {
    || layout.count == 0
    || (layout.count % NICS_PER_PCI_BUS != 0
          && (layout.shifted ==> layout.count % NICS_PER_PCI_BUS != NICS_PER_PCI_BUS - 1))
  }

  /** Every bus that some interface can need has a bridge exactly when the last one's has. */
  lemma BridgesSuffice(layout: Layout)
    ensures (forall k :: 1 <= k <= layout.count ==> Bus(layout, k) <= Bridges(layout.count)) <==> Bridged(layout)
  {
    var n := layout.count;
    var q, r := n / NICS_PER_PCI_BUS, n % NICS_PER_PCI_BUS;
    assert n == q * NICS_PER_PCI_BUS + r;
    if n > 0 {
      assert Bridges(n) == if r == 0 then q else q + 1;
      LastBus(layout);
      if Bridged(layout) {
        forall k | 1 <= k <= n ensures Bus(layout, k) <= Bridges(n) {
          if k < n {
            SlotDistinct(layout, k, n);
          }
        }
      } else {
        assert Bus(layout, n) > Bridges(n);
      }
    }
  }

  lemma LastBus(layout: Layout)
    requires layout.count > 0
    ensures Bus(layout, layout.count) <= Bridges(layout.count) <==> Bridged(layout)
  {
    var n := layout.count;
    var q, r := n / NICS_PER_PCI_BUS, n % NICS_PER_PCI_BUS;
    assert n == q * NICS_PER_PCI_BUS + r;
    assert (n + 1) / NICS_PER_PCI_BUS == if r == NICS_PER_PCI_BUS - 1 then q + 1 else q;
  }

  // ----- which interfaces there are

  lemma {:induction false} NicAt(layout: Layout, highest: nat, present: set<nat>, i: nat, j: nat)
    requires layout.start <= i <= layout.End() && j < |NicsFrom(layout, highest, present, i)|
    ensures var nic := NicsFrom(layout, highest, present, i)[j];
            && i <= nic.index < layout.End() && (nic.index in present || nic.index < highest)
            && nic == NicFor(layout, present, nic.index)
    decreases layout.End() - i
  {
    hide NicFor;
    IndexOf(layout, present, i);
    var own := |NicsFrom(layout, highest, present, i)| - |NicsFrom(layout, highest, present, i + 1)|;
    if j >= own {
      NicAt(layout, highest, present, i + 1, j - own);
    }
  }

  lemma IndexOf(layout: Layout, present: set<nat>, i: nat)
    requires layout.start <= i
    ensures NicFor(layout, present, i).index == i
  {
  }

  lemma {:induction false} NicFind(layout: Layout, highest: nat, present: set<nat>, i: nat, index: nat) returns (j: nat)
    requires layout.start <= i <= index < layout.End() && (index in present || index < highest)
    ensures j < |NicsFrom(layout, highest, present, i)| && NicsFrom(layout, highest, present, i)[j].index == index
    decreases layout.End() - i
  {
    hide NicFor;
    IndexOf(layout, present, i);
    j := 0;
    if i < index {
      j := NicFind(layout, highest, present, i + 1, index);
      j := j + |NicsFrom(layout, highest, present, i)| - |NicsFrom(layout, highest, present, i + 1)|;
    }
  }

  lemma {:induction false} NicOrder(layout: Layout, highest: nat, present: set<nat>, i: nat, j: nat, k: nat)
    requires layout.start <= i <= layout.End() && j < k < |NicsFrom(layout, highest, present, i)|
    ensures NicsFrom(layout, highest, present, i)[j].index < NicsFrom(layout, highest, present, i)[k].index
    decreases layout.End() - i
  {
    hide NicFor;
    IndexOf(layout, present, i);
    var own := |NicsFrom(layout, highest, present, i)| - |NicsFrom(layout, highest, present, i + 1)|;
    if j >= own {
      NicOrder(layout, highest, present, i + 1, j - own, k - own);
    } else {
      NicAt(layout, highest, present, i + 1, k - own);
    }
  }

  /** All emitted interfaces lie in distinct slots, in ascending order, on addresses 1 to 26. */
  lemma SlotsAscend(layout: Layout, highest: nat, present: set<nat>, j: nat, k: nat)
    requires j < k < |Nics(layout, highest, present)|
    ensures var nics := Nics(layout, highest, present);
            && nics[j].index < nics[k].index && Before(nics[j], nics[k])
            && 1 <= nics[j].addr <= NICS_PER_PCI_BUS && 1 <= nics[k].addr <= NICS_PER_PCI_BUS
  {
    var nics := Nics(layout, highest, present);
    NicAt(layout, highest, present, layout.start, j);
    NicAt(layout, highest, present, layout.start, k);
    NicOrder(layout, highest, present, layout.start, j, k);
    SlotDistinct(layout, nics[j].index - layout.start + 1, nics[k].index - layout.start + 1);
  }

  lemma {:induction false} NoneAbove(layout: Layout, highest: nat, present: set<nat>, i: nat)
    requires layout.start <= i <= layout.End() && highest < i
    requires forall m :: m in present && layout.start <= m < layout.End() ==> m <= highest
    ensures NicsFrom(layout, highest, present, i) == []
    decreases layout.End() - i
  {
    if i < layout.End() {
      NoneAbove(layout, highest, present, i + 1);
    }
  }

  lemma {:induction false} RunOfNics(layout: Layout, highest: nat, present: set<nat>, i: nat)
    requires layout.start <= i <= highest < layout.End() && highest in present
    requires forall m :: m in present && layout.start <= m < layout.End() ==> m <= highest
    ensures var nics := NicsFrom(layout, highest, present, i);
            |nics| == highest - i + 1 && forall j :: 0 <= j < |nics| ==> nics[j].index == i + j
    decreases highest - i
  {
    if i < highest {
      RunOfNics(layout, highest, present, i + 1);
    } else {
      NoneAbove(layout, highest, present, i + 1);
    }
  }

  /**
   With interfaces provisioned, the machine gets every index from the first to the highest one
   present, gaps filled with placeholders, so that each lands in the slot of its own index.
   */
  lemma ProvisionedRun(layout: Layout, provisioned: nat, present: set<nat>, highest: nat)
    requires IsHighest(layout, provisioned, present, highest) && provisioned > 0
    requires exists i :: i in present && layout.start <= i < layout.End()
    ensures var nics := Nics(layout, highest, present);
            && |nics| == highest - layout.start + 1
            && forall j :: 0 <= j < |nics| ==>
                 nics[j] == Nic(layout.start + j, layout.start + j !in present, Bus(layout, j + 1), Addr(layout, j + 1))
  {
    var nics := Nics(layout, highest, present);
    RunOfNics(layout, highest, present, layout.start);
    forall j | 0 <= j < |nics|
      ensures nics[j] == Nic(layout.start + j, layout.start + j !in present, Bus(layout, j + 1), Addr(layout, j + 1))
    {
      NicAt(layout, highest, present, layout.start, j);
    }
  }

  /** Without provisioning there are no placeholders: just the interfaces that happen to be present. */
  lemma UnprovisionedNics(layout: Layout, present: set<nat>, index: nat)
    ensures (exists j :: 0 <= j < |Nics(layout, 0, present)| && Nics(layout, 0, present)[j].index == index)
        <==> layout.start <= index < layout.End() && index in present
  {
    var nics := Nics(layout, 0, present);
    if layout.start <= index < layout.End() && index in present {
      var j := NicFind(layout, 0, present, layout.start, index);
      assert nics[j].index == index;
    }
    if j :| 0 <= j < |nics| && nics[j].index == index {
      NicAt(layout, 0, present, layout.start, j);
    }
  }

  // ----- the launcher object

  class DataPlane {
    const layout: Layout
    const provisioned: nat
    var highest: nat

    constructor (layout: Layout, provisioned: nat)
      ensures this.layout == layout && this.provisioned == provisioned && highest == 0
    {
      this.layout := layout;
      this.provisioned := provisioned;
      highest := 0;
    }

    /** `nic_provision_delay`, once the interfaces have appeared; `seen` lists them in any order. */
    method NicProvisionDelay(seen: seq<nat>)
      requires highest == 0
      modifies this
      ensures IsHighest(layout, provisioned, (set i | i in seen), highest)
    {
      if provisioned == 0 {
        return;
      }
      var any := false;
      for k := 0 to |seen|
        invariant !any ==> highest == 0
        invariant any <==> exists i :: i in seen[..k] && layout.start <= i < layout.End()
        invariant any ==> highest in seen[..k] && layout.start <= highest < layout.End()
        invariant any ==> forall i :: i in seen[..k] && layout.start <= i < layout.End() ==> i <= highest
      {
        assert seen[..k + 1] == seen[..k] + [seen[k]];
        assert forall i :: i in seen[..k + 1] <==> i in seen[..k] || i == seen[k];
        if layout.start <= seen[k] < layout.End() {
          assert seen[k] in seen[..k + 1];
          if !any || seen[k] > highest {
            highest := seen[k];
          }
          any := true;
        }
      }
      assert seen[..|seen|] == seen;
    }

    /** `gen_nics`: one counter for the slot, whatever becomes of the index. */
    method GenNics(present: set<nat>) returns (nics: seq<Nic>)
      ensures nics == Nics(layout, highest, present)
    {
      nics := [];
      var counter := 0;
      for i := layout.start to layout.End()
        invariant counter == i - layout.start
        invariant Nics(layout, highest, present) == nics + NicsFrom(layout, highest, present, i)
      {
        counter := counter + 1;
        var x := if layout.shifted then counter + 1 else counter;
        var bus := x / NICS_PER_PCI_BUS + 1;
        var addr := x % NICS_PER_PCI_BUS + 1;
        if i in present {
          nics := nics + [Nic(i, false, bus, addr)];
        } else if i < highest {
          nics := nics + [Nic(i, true, bus, addr)];
        }
      }
    }
  }

  // ----- ONTAP

  /** Addresses on the first bus move down by one, past the management slot; other buses stay. */
  function Moved(nic: Nic): Nic
    requires nic.addr >= 1
  {
    if nic.bus != 1 then nic
    else
      var eth := nic.addr - 1;
      nic.(addr := if eth < MGMT_PCI_ADDR then eth else eth + 1)
  }

  predicate FirstBus(nic: Nic, slot: nat) {
    nic.bus == 1 && nic.addr == slot
  }

  /** What `gen_nics` of the ONTAP launcher makes of the parent's list: data, then dummies. */
  datatype Ontap = Ontap(data: seq<Nic>, dummies: seq<nat>)

  predicate Taken(nics: seq<Nic>, slot: nat) {
    exists j :: 0 <= j < |nics| && FirstBus(nics[j], slot)
  }

  /** The renumbering in place, and the slots before the management slot that nobody uses. */
  method Renumber(nics: array<Nic>) returns (dummies: seq<nat>)
    requires forall j :: 0 <= j < nics.Length ==> nics[j].addr >= 1
    modifies nics
    ensures forall j :: 0 <= j < nics.Length ==> nics[j] == Moved(old(nics[j]))
    ensures forall slot :: slot in dummies <==> 1 <= slot < MGMT_PCI_ADDR && !Taken(nics[..], slot)
    ensures forall i, j :: 0 <= i < j < |dummies| ==> dummies[i] < dummies[j]
  {
    var used: set<nat> := {};
    for j := 0 to nics.Length
      invariant forall i :: 0 <= i < j ==> nics[i] == Moved(old(nics[i]))
      invariant forall i :: j <= i < nics.Length ==> nics[i] == old(nics[i])
      invariant forall slot :: slot in used <==> Taken(nics[..j], slot)
    {
      ghost var before := nics[..j];
      if nics[j].bus == 1 {
        var eth := nics[j].addr - 1;
        var addr := if eth < MGMT_PCI_ADDR then eth else eth + 1;
        used := used + {addr};
        nics[j] := nics[j].(addr := addr);
      }
      assert nics[..j + 1] == before + [nics[j]];
      TakenMore(before, nics[j]);
    }
    assert nics[..nics.Length] == nics[..];
    dummies := [];
    for slot := 1 to MGMT_PCI_ADDR
      invariant forall s :: s in dummies <==> 1 <= s < slot && !Taken(nics[..], s)
      invariant forall i, j :: 0 <= i < j < |dummies| ==> dummies[i] < dummies[j]
    {
      if slot !in used {
        assert forall i :: 0 <= i < |dummies| ==> dummies[i] in dummies;
        dummies := dummies + [slot];
      }
    }
  }

  lemma TakenMore(nics: seq<Nic>, nic: Nic)
    ensures forall slot :: Taken(nics + [nic], slot) <==> Taken(nics, slot) || FirstBus(nic, slot)
  {
    forall slot ensures Taken(nics + [nic], slot) <==> Taken(nics, slot) || FirstBus(nic, slot) {
      if Taken(nics, slot) {
        var j :| 0 <= j < |nics| && FirstBus(nics[j], slot);
        assert (nics + [nic])[j] == nics[j];
      }
      if FirstBus(nic, slot) {
        assert (nics + [nic])[|nics|] == nic;
      }
    }
  }

  function MovedAll(nics: seq<Nic>): (r: seq<Nic>)
    requires forall j :: 0 <= j < |nics| ==> nics[j].addr >= 1
    ensures |r| == |nics| && forall j :: 0 <= j < |nics| ==> r[j] == Moved(nics[j])
  {
    seq(|nics|, j requires 0 <= j < |nics| => Moved(nics[j]))
  }

  /** The interfaces, with the knowledge that their addresses are positive. */
  function AllAddressed(layout: Layout, highest: nat, present: set<nat>): (nics: seq<Nic>)
    ensures nics == Nics(layout, highest, present)
    ensures forall j :: 0 <= j < |nics| ==> nics[j].addr >= 1
  {
    var nics := Nics(layout, highest, present);
    assert forall j :: 0 <= j < |nics| ==> nics[j].addr >= 1 by {
      forall j | 0 <= j < |nics| ensures nics[j].addr >= 1 {
        NicAt(layout, highest, present, layout.start, j);
      }
    }
    nics
  }

  /**
   ONTAP counts its ports in slot order. After the renumbering the data interfaces keep their order
   and their distinct slots, none is in the management slot, and eth1 and eth2 come before it while
   the rest of the first bus comes after.
   */
  lemma OntapKeepsOrder(layout: Layout, highest: nat, present: set<nat>, j: nat, k: nat)
    requires !layout.shifted && j < k < |AllAddressed(layout, highest, present)|
    ensures var nics := AllAddressed(layout, highest, present);
            && Before(Moved(nics[j]), Moved(nics[k]))
            && !FirstBus(Moved(nics[j]), MGMT_PCI_ADDR) && !FirstBus(Moved(nics[k]), MGMT_PCI_ADDR)
            && 1 <= Moved(nics[k]).addr <= NICS_PER_PCI_BUS
  {
    var nics := Nics(layout, highest, present);
    NicAt(layout, highest, present, layout.start, j);
    NicAt(layout, highest, present, layout.start, k);
    SlotsAscend(layout, highest, present, j, k);
    FirstBusAddr(layout, nics[j].index - layout.start + 1);
    FirstBusAddr(layout, nics[k].index - layout.start + 1);
  }

  /** On the first bus the k-th interface has address k + 1. */
  lemma FirstBusAddr(layout: Layout, k: nat)
    requires !layout.shifted && k >= 1
    ensures Bus(layout, k) == 1 ==> Addr(layout, k) == k + 1 <= NICS_PER_PCI_BUS
  {
  }

  /** Where the k-th data interface of ONTAP ends up: slots 1 and 2, then 4 and on. */
  lemma OntapSlot(layout: Layout, highest: nat, present: set<nat>, j: nat)
    requires !layout.shifted && j < |AllAddressed(layout, highest, present)|
    ensures var nic := AllAddressed(layout, highest, present)[j];
            var k := nic.index - layout.start + 1;
            nic.bus == 1 ==> Moved(nic).addr == if k < MGMT_PCI_ADDR then k else k + 1
  {
    NicAt(layout, highest, present, layout.start, j);
    FirstBusAddr(layout, Nics(layout, highest, present)[j].index - layout.start + 1);
  }

  /** The whole ONTAP list: slots 1 and 2 are filled, by data or by a dummy, never by both. */
  method OntapNics(plane: DataPlane, present: set<nat>) returns (result: Ontap)
    requires !plane.layout.shifted
    ensures result.data == MovedAll(AllAddressed(plane.layout, plane.highest, present))
    ensures forall slot :: 1 <= slot < MGMT_PCI_ADDR ==> (slot in result.dummies <==> !Taken(result.data, slot))
    ensures !Taken(result.data, MGMT_PCI_ADDR) && forall slot :: slot in result.dummies ==> 1 <= slot < MGMT_PCI_ADDR
  {
    var list := plane.GenNics(present);
    var addressed := AllAddressed(plane.layout, plane.highest, present);
    var nics := new Nic[|list|](i requires 0 <= i < |list| => list[i]);
    assert nics[..] == list;
    var dummies := Renumber(nics);
    assert nics[..] == MovedAll(addressed);
    forall j | 0 <= j < |list| ensures !FirstBus(nics[j], MGMT_PCI_ADDR) {
      OntapSlot(plane.layout, plane.highest, present, j);
    }
    result := Ontap(nics[..], dummies);
  }
}
