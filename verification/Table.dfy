// The slot table: dropping a transaction with its children, and finding a
// slot for a new one.
module Table {
  import opened Base
  import opened Slots
  import Uri

  // What the application is told about a client transaction
  datatype Report = Progress | Final | TimedOut

  // The history of a run. Transactions are named by the generation of their
  // slot, and one CSeq of theirs by its attempt number.
  datatype Event =
    | Sent(gen: nat, attempt: nat, verb: Method, ident: Ident, at: nat)
    | Replied(gen: nat, status: nat, at: nat)
    | Acked(gen: nat)
    | Heard(gen: nat, attempt: nat, sclass: nat, contact: Uri.SipUri)
    | Told(gen: nat, attempt: nat, what: Report)
    | Detached(gen: nat)
    | CancelMade(gen: nat, attempt: nat, cancelGen: nat, ident: Ident)
    | ByeMade(gen: nat, attempt: nat, ackGen: nat, byeGen: nat, ident: Ident,
              contact: Uri.SipUri, branch: nat)
    | AckBuilt(gen: nat, attempt: nat, ackGen: nat, sclass: nat, ident: Ident,
               contact: Uri.SipUri, branch: nat)
    | AckArmed(gen: nat, ackGen: nat, sclass: nat, abandoned: bool)

  // `gens` is the next unused generation and `clock` the latest time seen
  datatype Tm = Tm(slots: seq<Slot>, nactive: nat, reliable: bool,
                   gens: nat, clock: nat, log: seq<Event>)

  datatype Rc = Ok | Inval | NotFound | Unsupported | NoSpace | BadMsg | SendFailed

  // Whether a new transaction fits the storage of its slot: `Full` fails
  // before the slot counts as active, `FullLate` after.
  datatype Space = Fits | Full | FullLate

  function Put(tm: Tm, i: nat, s: Slot): Tm
    requires i < |tm.slots|
  {
    tm.(slots := tm.slots[i := s])
  }

  function Note(tm: Tm, e: Event): Tm {
    tm.(log := tm.log + [e])
  }

  function CountActive(slots: seq<Slot>): (n: nat)
    ensures n <= |slots|
  {
    if slots == [] then 0
    else CountActive(slots[..|slots| - 1]) + (if slots[|slots| - 1].active then 1 else 0)
  }

  // --- Dropping

  predicate InFamily(slots: seq<Slot>, i: nat, j: nat)
    requires i < |slots| && j < |slots|
  {
    j == i || (slots[j].active && slots[j].parent == Some(i))
  }

  function DroppedAt(slots: seq<Slot>, i: nat, j: nat): Slot
    requires i < |slots| && j < |slots|
  {
    if InFamily(slots, i, j) then EMPTY
    else if slots[i].parent == Some(j) && slots[j].active && slots[j].child == Some(i)
    then slots[j].(child := None)
    else slots[j]
  }

  function DropFamily(slots: seq<Slot>, i: nat): (r: seq<Slot>)
    requires i < |slots|
    ensures |r| == |slots|
    ensures forall j :: 0 <= j < |slots| ==> r[j] == DroppedAt(slots, i, j)
  {
    seq(|slots|, j requires 0 <= j < |slots| => DroppedAt(slots, i, j))
  }

  // The size of the family of i among the first n slots
  function FamilySize(slots: seq<Slot>, i: nat, n: nat): nat
    requires i < |slots| && n <= |slots|
  {
    if n == 0 then 0
    else FamilySize(slots, i, n - 1) + (if InFamily(slots, i, n - 1) then 1 else 0)
  }

  function Drop(tm: Tm, i: nat): (r: Tm)
    requires i < |tm.slots|
    ensures |r.slots| == |tm.slots|
  {
    tm.(slots := DropFamily(tm.slots, i),
        nactive := Max(0, tm.nactive - FamilySize(tm.slots, i, |tm.slots|)))
  }

  function DropTransaction(tm: Tm, i: nat): (r: (Tm, Rc))
    ensures |r.0.slots| == |tm.slots|
  {
    if i >= |tm.slots| then (tm, Inval)
    else if !tm.slots[i].active then (tm, NotFound)
    else (Drop(tm, i), Ok)
  }

  // Dropping every terminated transaction, in the order of the table
  function ReapFrom(tm: Tm, i: nat): (r: Tm)
    requires i <= |tm.slots|
    ensures |r.slots| == |tm.slots|
    decreases |tm.slots| - i
  {
    if i == |tm.slots| then tm
    else if tm.slots[i].active && tm.slots[i].state.Terminated?
    then ReapFrom(Drop(tm, i), i + 1)
    else ReapFrom(tm, i + 1)
  }

  function Reap(tm: Tm): (r: Tm)
    ensures |r.slots| == |tm.slots|
  {
    if tm.nactive == 0 then tm else ReapFrom(tm, 0)
  }

  // --- Allocating

  predicate Better(slots: seq<Slot>, i: nat, best: Option<nat>)
    requires i < |slots| && (best.Some? ==> best.value < |slots|)
  {
    Evictable(slots[i]) && (best.None? || EvictKey(slots[i]) < EvictKey(slots[best.value]))
  }

  function AllocFrom(slots: seq<Slot>, i: nat, best: Option<nat>): (r: Option<nat>)
    requires i <= |slots| && (best.Some? ==> best.value < |slots|)
    ensures r.Some? ==> r.value < |slots|
    decreases |slots| - i
  {
    if i == |slots| then best
    else if !slots[i].active then Some(i)
    else if Better(slots, i, best) then AllocFrom(slots, i + 1, Some(i))
    else AllocFrom(slots, i + 1, best)
  }

  // The slot alloc_slot picks: a free one, or the victim to evict
  function AllocIndex(slots: seq<Slot>): (r: Option<nat>)
    ensures r.Some? ==> r.value < |slots|
  {
    AllocFrom(slots, 0, None)
  }

  // That slot made free
  function Vacate(tm: Tm, c: nat): (r: Tm)
    requires c < |tm.slots|
    ensures |r.slots| == |tm.slots| && r.slots[c] == EMPTY
  {
    Put(if tm.slots[c].active then Drop(tm, c) else tm, c, EMPTY)
  }

  // A slot come to life
  function Awake(s: Slot, gen: nat): Slot {
    s.(active := true, gen := gen)
  }

  // A new transaction in slot c, already vacated
  function Install(tm: Tm, c: nat, s: Slot): Tm
    requires c < |tm.slots|
  {
    Put(tm, c, Awake(s, tm.gens)).(nactive := tm.nactive + 1, gens := tm.gens + 1)
  }

  // Allocate and fill a slot, as far as the storage allows
  function NewSlot(tm: Tm, s: Slot, space: Space): (r: (Tm, Option<nat>))
    ensures |r.0.slots| == |tm.slots|
    ensures r.1.Some? ==> r.1.value < |tm.slots|
  {
    var c := AllocIndex(tm.slots);
    if c.None? then (tm, None)
    else
      var v := Vacate(tm, c.value);
      match space
      case Fits => (Install(v, c.value, s), c)
      case Full => (v, None)
      case FullLate => (v.(nactive := v.nactive + 1), None)
  }
}
