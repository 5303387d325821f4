/** One slot of the frame-time ring, and the whole ring within one capture.

    A claim goes through a fixed sequence of atomic steps and touches one slot only.
    `Step` performs the next one on that slot; the claims of different presenters
    step in any order. */
module RingCore {

  const FLOOR: nat := 0x8000_0000_0000_0000
  const INVALID: nat := 0xFFFF_FFFF_FFFF_FFFF

  /** One 16-byte cell: a published sequence or a writer marker, and its stamp. */
  datatype Cell = Cell(word: nat, stamp: nat)

  predicate IsMarker(word: nat) { word >= FLOOR }

  function Marker(claim: nat): nat
    requires claim <= INVALID
  {
    INVALID - claim
  }

  /** The claim a slot word belongs to, whether published or only taken. */
  function Rank(word: nat): nat
    requires word <= INVALID
  {
    if IsMarker(word) then INVALID - word else word
  }

  /** Grows with every change of a slot: taking it raises the rank, publishing
      keeps the rank and adds one. */
  function Progress(word: nat): nat
    requires word <= INVALID
  {
    2 * Rank(word) + if IsMarker(word) then 0 else 1
  }

  function SlotFor(n: nat, claim: nat): (i: nat)
    requires n > 0 && claim > 0
    ensures i < n
  {
    (claim - 1) % n
  }

  datatype Phase =
    | Fresh                     // claimed, pending mark not added yet
    | Marked                    // mark added, slot not taken yet
    | Late                      // slot is newer; own mark not withdrawn yet
    | LateUnmarked              // own mark withdrawn; drop not counted yet
    | TookOver(displaced: nat)  // slot taken from `displaced`, whose mark is to be withdrawn
    | Holding                   // slot taken, publication not attempted yet
    | Lost                      // publication refused; drop not counted yet
    | Published                 // cell written; own mark not withdrawn yet
    | DonePublished
    | DoneDropped

  predicate Done(ph: Phase) { ph.DonePublished? || ph.DoneDropped? }

  /** The claim's stamp has been in its cell. */
  predicate Shown(ph: Phase) { ph.Published? || ph.DonePublished? }

  datatype Fill = Fill(stamp: nat, owner: nat, phase: Phase)

  /** `g` is a later record of the claim `f` records. */
  predicate Follows(f: Fill, g: Fill) {
    g.stamp == f.stamp && g.owner == f.owner && (Shown(f.phase) ==> Shown(g.phase))
  }

  /** `cell` and `ahead` are the ring's own words for this slot.  The rest is history:
      `fill` has the claims sent to this slot with the steps each has made, `marked`
      the claims whose +1 has run and whose matching -1 has not, and `debt` maps a
      displaced claim to the displacer that owes its -1. */
  datatype Lane = Lane(cell: Cell, ahead: nat, fill: map<nat, Fill>, marked: set<nat>, debt: map<nat, nat>)

  /** The claim's own marker is in the slot. */
  predicate Owns(l: Lane, c: nat) { c <= INVALID && l.cell.word == Marker(c) }

  /** The claim will withdraw its own mark itself. */
  predicate KeepsMark(l: Lane, c: nat)
    requires c in l.fill
  {
    var ph := l.fill[c].phase;
    ph.Marked? || ph.Late? || ph.Published? || ((ph.TookOver? || ph.Holding?) && Owns(l, c))
  }

  ghost predicate CellOk(l: Lane) {
    && l.cell.word <= INVALID
    && var r := Rank(l.cell.word);
       if r == 0 then l.cell.stamp == 0
       else
         && r in l.fill
         && var f := l.fill[r];
            if IsMarker(l.cell.word)
            then l.cell.stamp == 0 && (f.phase.TookOver? || f.phase.Holding?)
            else l.cell.stamp == f.stamp && (f.phase.Published? || f.phase.DonePublished?)
  }

  ghost predicate ClaimOk(l: Lane, c: nat)
    requires l.cell.word <= INVALID && c in l.fill
  {
    var r := Rank(l.cell.word);
    && 0 < c < FLOOR
    && l.fill[c].stamp != 0
    && (KeepsMark(l, c) ==> c in l.marked && c !in l.debt)
    && match l.fill[c].phase
       case Fresh => c !in l.marked
       case Marked => true
       case Late => r > c
       case LateUnmarked => r > c && c !in l.marked
       case TookOver(b) => r >= c && b < c && b in l.fill && b in l.marked && b in l.debt && l.debt[b] == c
       case Holding => r >= c
       case Lost => r > c
       case Published => r >= c
       case DonePublished => r >= c && c !in l.marked
       case DoneDropped => r > c
  }

  ghost predicate ClaimsOk(l: Lane) {
    l.cell.word <= INVALID && forall c | c in l.fill :: ClaimOk(l, c)
  }

  ghost predicate MarksOk(l: Lane) {
    && (forall c | c in l.marked :: c in l.fill && (KeepsMark(l, c) || c in l.debt))
    && (forall b | b in l.debt :: l.debt[b] in l.fill && l.fill[l.debt[b]].phase == TookOver(b))
    && l.ahead == |l.marked|
  }

  ghost predicate LaneInv(l: Lane) {
    CellOk(l) && ClaimsOk(l) && MarksOk(l)
  }

  // ------------------------------------------------------- the steps on a slot

  function To(l: Lane, c: nat, ph: Phase): Lane
    requires c in l.fill
  {
    l.(fill := l.fill[c := l.fill[c].(phase := ph)])
  }

  /** frm_bump_ahead(slot, +1); `who` is the claim the mark belongs to. */
  function Bump(claims: nat, l: Lane, who: nat): Lane {
    if claims == 0 then l else l.(ahead := l.ahead + 1, marked := l.marked + {who})
  }

  /** frm_bump_ahead(slot, -1), with its guard against an empty count. */
  function Unbump(claims: nat, l: Lane, who: nat): Lane {
    if claims == 0 || l.ahead == 0 then l
    else l.(ahead := l.ahead - 1, marked := l.marked - {who}, debt := l.debt - {who})
  }

  /** The test of frm_try_slot on a slot word, in the source's own encoding. */
  predicate Older(word: nat, claim: nat)
    requires claim < FLOOR
  {
    if word >= FLOOR then word > Marker(claim) else word < claim
  }

  predicate Takeover(word: nat, claim: nat)
    requires claim < FLOOR
  {
    word >= FLOOR && word > Marker(claim) && word != INVALID
  }

  function TrySlot(l: Lane, c: nat): Lane
    requires l.cell.word <= INVALID && c in l.fill && c < FLOOR
  {
    var word := l.cell.word;
    if !Older(word, c) then To(l, c, Late)
    else
      var taken := l.(cell := Cell(Marker(c), 0));
      if Takeover(word, c)
      then To(taken, c, TookOver(Rank(word))).(debt := l.debt[Rank(word) := c])
      else To(taken, c, Holding)
  }

  function Publish(l: Lane, c: nat): Lane
    requires c in l.fill && c < FLOOR
  {
    if l.cell.word != Marker(c) then To(l, c, Lost)
    else To(l.(cell := Cell(c, l.fill[c].stamp)), c, Published)
  }

  /** The next atomic step of the presenter that holds claim `c`. */
  function Step(claims: nat, l: Lane, c: nat): (t: Lane)
    requires l.cell.word <= INVALID && c in l.fill && c < FLOOR && !Done(l.fill[c].phase)
    ensures t.fill.Keys == l.fill.Keys
  {
    match l.fill[c].phase
    case Fresh => To(Bump(claims, l, c), c, Marked)
    case Marked => TrySlot(l, c)
    case Late => To(Unbump(claims, l, c), c, LateUnmarked)
    case LateUnmarked => To(l, c, DoneDropped)
    case TookOver(b) => To(Unbump(claims, l, b), c, Holding)
    case Holding => Publish(l, c)
    case Lost => To(l, c, DoneDropped)
    case Published => To(Unbump(claims, l, c), c, DonePublished)
  }

  /** The source's marker comparison is exactly "belongs to an earlier claim". */
  lemma OlderIsRank(word: nat, claim: nat)
    requires word <= INVALID && claim < FLOOR
    ensures Older(word, claim) <==> Rank(word) < claim
    ensures Takeover(word, claim) <==> Rank(word) < claim && IsMarker(word) && Rank(word) != 0
  {
  }

  lemma BumpKeepsClaims(claims: nat, l: Lane, c: nat)
    requires CellOk(l) && ClaimsOk(l) && MarksOk(l) && c in l.fill && l.fill[c].phase.Fresh? && claims > 0
    ensures ClaimsOk(To(Bump(claims, l, c), c, Marked))
  {
    var t := To(Bump(claims, l, c), c, Marked);
    assert ClaimOk(l, c);
    forall d | d in t.fill ensures ClaimOk(t, d) { assert ClaimOk(l, d); }
  }

  lemma BumpKeepsMarks(claims: nat, l: Lane, c: nat)
    requires MarksOk(l) && c in l.fill && l.fill[c].phase.Fresh? && claims > 0 && c !in l.marked
    ensures MarksOk(To(Bump(claims, l, c), c, Marked))
  {
  }

  lemma BumpKeepsLane(claims: nat, l: Lane, c: nat)
    requires LaneInv(l) && c in l.fill && l.fill[c].phase.Fresh? && claims > 0
    ensures LaneInv(To(Bump(claims, l, c), c, Marked))
  {
    BumpKeepsClaims(claims, l, c);
    assert ClaimOk(l, c);
    BumpKeepsMarks(claims, l, c);
    hide ClaimsOk, MarksOk;
  }

  lemma LateKeepsLane(l: Lane, c: nat)
    requires LaneInv(l) && c in l.fill && l.fill[c].phase.Marked? && Rank(l.cell.word) > c
    ensures LaneInv(To(l, c, Late))
  {
    var t := To(l, c, Late);
    forall d | d in t.fill ensures ClaimOk(t, d) { assert ClaimOk(l, d); }
  }

  lemma TakeFreeKeepsLane(l: Lane, c: nat)
    requires LaneInv(l) && c in l.fill && l.fill[c].phase.Marked? && Rank(l.cell.word) < c < FLOOR
    requires !IsMarker(l.cell.word) || Rank(l.cell.word) == 0
    ensures LaneInv(To(l.(cell := Cell(Marker(c), 0)), c, Holding))
  {
    var t := To(l.(cell := Cell(Marker(c), 0)), c, Holding);
    assert ClaimOk(l, c);
    forall d | d in t.fill ensures ClaimOk(t, d) { assert ClaimOk(l, d); }
  }

  function Displaced(l: Lane, c: nat, b: nat): Lane
    requires c in l.fill && c <= INVALID
  {
    To(l.(cell := Cell(Marker(c), 0)), c, TookOver(b)).(debt := l.debt[b := c])
  }

  lemma TakeOverKeepsClaims(l: Lane, c: nat, b: nat)
    requires CellOk(l) && ClaimsOk(l) && c in l.fill && l.fill[c].phase.Marked? && b == Rank(l.cell.word) < c < FLOOR
    requires IsMarker(l.cell.word) && b != 0
    ensures ClaimsOk(Displaced(l, c, b)) && CellOk(Displaced(l, c, b)) && b !in l.debt
  {
    var t := Displaced(l, c, b);
    assert ClaimOk(l, c) && ClaimOk(l, b);
    forall d | d in t.fill ensures ClaimOk(t, d) { assert ClaimOk(l, d); }
  }

  lemma TakeOverKeepsMarks(l: Lane, c: nat, b: nat)
    requires MarksOk(l) && c in l.fill && l.fill[c].phase.Marked? && b < c < FLOOR
    requires l.cell.word == Marker(b) && b !in l.debt
    ensures MarksOk(Displaced(l, c, b))
  {
  }

  lemma TakeOverKeepsLane(l: Lane, c: nat, b: nat)
    requires LaneInv(l) && c in l.fill && l.fill[c].phase.Marked? && b == Rank(l.cell.word) < c < FLOOR
    requires IsMarker(l.cell.word) && b != 0
    ensures LaneInv(Displaced(l, c, b))
  {
    TakeOverKeepsClaims(l, c, b);
    hide ClaimsOk, CellOk;
    TakeOverKeepsMarks(l, c, b);
  }

  lemma RankUnique(l: Lane, c: nat)
    requires LaneInv(l) && c in l.fill && l.fill[c].phase.Marked?
    ensures Rank(l.cell.word) != c
  {
    assert ClaimOk(l, c);
  }

  lemma TrySlotKeepsLane(l: Lane, c: nat)
    requires LaneInv(l) && c in l.fill && l.fill[c].phase.Marked?
    ensures c < FLOOR && LaneInv(TrySlot(l, c))
  {
    assert ClaimOk(l, c);
    var word := l.cell.word;
    OlderIsRank(word, c);
    RankUnique(l, c);
    if !Older(word, c) {
      LateKeepsLane(l, c);
    } else if Takeover(word, c) {
      TakeOverKeepsLane(l, c, Rank(word));
    } else {
      TakeFreeKeepsLane(l, c);
    }
  }

  lemma WithdrawOwnKeepsClaims(claims: nat, l: Lane, c: nat, ph: Phase)
    requires CellOk(l) && ClaimsOk(l) && MarksOk(l) && c in l.fill && claims > 0
    requires (l.fill[c].phase, ph) in {(Late, LateUnmarked), (Published, DonePublished)}
    ensures ClaimsOk(To(Unbump(claims, l, c), c, ph))
  {
    var t := To(Unbump(claims, l, c), c, ph);
    assert ClaimOk(l, c);
    forall d | d in t.fill ensures ClaimOk(t, d) { assert ClaimOk(l, d); }
  }

  lemma WithdrawOwnKeepsMarks(claims: nat, l: Lane, c: nat, ph: Phase)
    requires MarksOk(l) && c in l.fill && claims > 0 && c in l.marked && c !in l.debt
    requires !l.fill[c].phase.TookOver? && !ph.TookOver?
    ensures MarksOk(To(Unbump(claims, l, c), c, ph))
  {
  }

  lemma WithdrawOwnKeepsLane(claims: nat, l: Lane, c: nat, ph: Phase)
    requires LaneInv(l) && c in l.fill && claims > 0
    requires (l.fill[c].phase, ph) in {(Late, LateUnmarked), (Published, DonePublished)}
    ensures LaneInv(To(Unbump(claims, l, c), c, ph))
  {
    WithdrawOwnKeepsClaims(claims, l, c, ph);
    assert ClaimOk(l, c);
    WithdrawOwnKeepsMarks(claims, l, c, ph);
    hide ClaimsOk, MarksOk;
  }

  lemma WithdrawDisplacedKeepsLane(claims: nat, l: Lane, c: nat)
    requires LaneInv(l) && c in l.fill && l.fill[c].phase.TookOver? && claims > 0
    ensures LaneInv(To(Unbump(claims, l, l.fill[c].phase.displaced), c, Holding))
  {
    var t := To(Unbump(claims, l, l.fill[c].phase.displaced), c, Holding);
    assert ClaimOk(l, c);
    forall d | d in t.fill ensures ClaimOk(t, d) { assert ClaimOk(l, d); }
  }

  lemma PublishKeepsClaims(l: Lane, c: nat)
    requires CellOk(l) && ClaimsOk(l) && c in l.fill && l.fill[c].phase.Holding?
    ensures c < FLOOR && ClaimsOk(Publish(l, c))
  {
    assert ClaimOk(l, c);
    var t := Publish(l, c);
    forall d | d in t.fill ensures ClaimOk(t, d) { assert ClaimOk(l, d); }
  }

  lemma PublishKeepsMarks(l: Lane, c: nat)
    requires MarksOk(l) && c in l.fill && l.fill[c].phase.Holding? && c < FLOOR
    ensures MarksOk(Publish(l, c))
  {
  }

  lemma PublishKeepsLane(l: Lane, c: nat)
    requires LaneInv(l) && c in l.fill && l.fill[c].phase.Holding?
    ensures c < FLOOR && LaneInv(Publish(l, c))
  {
    PublishKeepsClaims(l, c);
    PublishKeepsMarks(l, c);
    assert ClaimOk(l, c);
    hide ClaimsOk, MarksOk;
  }

  lemma DropKeepsLane(l: Lane, c: nat)
    requires LaneInv(l) && c in l.fill && (l.fill[c].phase.LateUnmarked? || l.fill[c].phase.Lost?)
    ensures LaneInv(To(l, c, DoneDropped))
  {
    var t := To(l, c, DoneDropped);
    assert ClaimOk(l, c);
    forall d | d in t.fill ensures ClaimOk(t, d) { assert ClaimOk(l, d); }
  }

  /** Every atomic step of every presenter keeps the slot's invariant. */
  lemma StepKeepsLane(claims: nat, l: Lane, c: nat)
    requires LaneInv(l) && c in l.fill && !Done(l.fill[c].phase) && claims > 0
    ensures c < FLOOR && LaneInv(Step(claims, l, c))
  {
    assert ClaimOk(l, c);
    match l.fill[c].phase
    case Fresh => BumpKeepsLane(claims, l, c);
    case Marked => TrySlotKeepsLane(l, c);
    case Late => WithdrawOwnKeepsLane(claims, l, c, LateUnmarked);
    case LateUnmarked => DropKeepsLane(l, c);
    case TookOver(b) => WithdrawDisplacedKeepsLane(claims, l, c);
    case Holding => PublishKeepsLane(l, c);
    case Lost => DropKeepsLane(l, c);
    case Published => WithdrawOwnKeepsLane(claims, l, c, DonePublished);
  }

  /** `t` differs from `l` in claim `c` only, and there not in stamp or owner. */
  ghost predicate SameBut(l: Lane, t: Lane, c: nat) {
    && t.fill.Keys == l.fill.Keys
    && (forall d | d in l.fill && d != c :: t.fill[d] == l.fill[d])
    && (c in l.fill ==> Follows(l.fill[c], t.fill[c]))
  }

  lemma StepFrame(claims: nat, l: Lane, c: nat)
    requires l.cell.word <= INVALID && c in l.fill && !Done(l.fill[c].phase) && c < FLOOR
    ensures SameBut(l, Step(claims, l, c), c)
    ensures Step(claims, l, c).fill[c].phase.DoneDropped? <==> l.fill[c].phase.LateUnmarked? || l.fill[c].phase.Lost?
  {
  }

  /** A slot's word only moves forward, and every change of the cell is progress;
      hence a compare-and-swap that loses its race has a newer word to look at. */
  lemma StepProgress(claims: nat, l: Lane, c: nat)
    requires LaneInv(l) && c in l.fill && !Done(l.fill[c].phase) && claims > 0 && c < FLOOR
    ensures var t := Step(claims, l, c);
      && t.cell.word <= INVALID
      && (t.cell != l.cell ==> Progress(l.cell.word) < Progress(t.cell.word))
  {
    OlderIsRank(l.cell.word, c);
    assert ClaimOk(l, c);
  }

  /** The withdrawal guard never fires: the mark to withdraw is still there. */
  lemma WithdrawalFindsMark(l: Lane, c: nat)
    requires LaneInv(l) && c in l.fill
    requires l.fill[c].phase.Late? || l.fill[c].phase.TookOver? || l.fill[c].phase.Published?
    ensures l.ahead > 0
    ensures (if l.fill[c].phase.TookOver? then l.fill[c].phase.displaced else c) in l.marked
  {
    assert ClaimOk(l, c);
    if l.marked == {} {}
  }

  /** A claim that is dropped, or going to be, shares its slot with a later claim. */
  lemma DropHasNewerClaim(l: Lane, c: nat)
    requires LaneInv(l) && c in l.fill
    requires var ph := l.fill[c].phase; ph.Late? || ph.LateUnmarked? || ph.Lost? || ph.DoneDropped?
    ensures Rank(l.cell.word) in l.fill && c < Rank(l.cell.word)
  {
    assert ClaimOk(l, c);
  }

  /** When every claim on a slot has finished no pending mark is left. */
  lemma QuietLaneUnmarked(l: Lane)
    requires LaneInv(l) && forall c | c in l.fill :: Done(l.fill[c].phase)
    ensures l.marked == {} && l.ahead == 0
  {
    assert forall b :: b !in l.debt;
    assert forall c :: c !in l.marked;
  }

  /** The largest claim on a slot, once finished, is published there. */
  lemma LastClaimPublished(l: Lane, c: nat)
    requires LaneInv(l) && c in l.fill && Done(l.fill[c].phase)
    requires forall d | d in l.fill :: d <= c
    ensures l.cell == Cell(c, l.fill[c].stamp) && c < FLOOR && l.fill[c].stamp != 0
  {
    assert ClaimOk(l, c);
    assert Rank(l.cell.word) <= c;
  }

  // ------------------------------------------------------------ the whole ring

  /** `home` records the slot each claim was sent to and `gone` the claims counted
      in `dropped`. */
  datatype Core = Core(n: nat, claims: nat, dropped: nat, lane: seq<Lane>, home: map<nat, nat>, gone: set<nat>)

  ghost predicate Shape(k: Core) {
    && k.n > 0 && |k.lane| == k.n && k.claims < FLOOR
    && (forall c :: c in k.home <==> 1 <= c <= k.claims)
    && (forall c | c in k.home :: k.home[c] < k.n && c in k.lane[k.home[c]].fill)
    && (forall i, c {:trigger c in k.lane[i].fill} |
          0 <= i < k.n && c in k.lane[i].fill :: c in k.home && k.home[c] == i)
  }

  ghost predicate LanesOk(k: Core) {
    forall i {:trigger LaneInv(k.lane[i])} | 0 <= i < |k.lane| :: LaneInv(k.lane[i])
  }

  /** All claims of the capture. */
  ghost function Fills(k: Core): (fills: map<nat, Fill>)
    requires Shape(k)
    ensures fills.Keys == k.home.Keys
  {
    map c | c in k.home :: k.lane[k.home[c]].fill[c]
  }

  ghost predicate DropsOk(fills: map<nat, Fill>, gone: set<nat>, dropped: nat) {
    && gone <= fills.Keys
    && (forall c | c in fills :: c in gone <==> fills[c].phase.DoneDropped?)
    && dropped == |gone|
  }

  ghost predicate CoreInv(k: Core) {
    && Shape(k)
    && LanesOk(k)
    && DropsOk(Fills(k), k.gone, k.dropped)
  }

  /** Each claim went to the slot its number selects. */
  ghost predicate HomesOk(k: Core) {
    k.n > 0 && forall c | c in k.home :: c > 0 && k.home[c] == SlotFor(k.n, c)
  }

  /** A slot as frm_reset_locked leaves it. */
  function EmptyLane(): Lane { Lane(Cell(INVALID, 0), 0, map[], {}, map[]) }

  /** frm_xadd64(&frm_claims, 1) + 1 by thread `owner`. */
  function Take(k: Core, owner: nat, stamp: nat): Core
    requires k.n > 0 && |k.lane| == k.n
  {
    TakeOn(k, SlotFor(k.n, k.claims + 1), owner, stamp)
  }

  function TakeOn(k: Core, i: nat, owner: nat, stamp: nat): Core
    requires i < |k.lane|
  {
    var c := k.claims + 1;
    k.(claims := c, home := k.home[c := i], lane := k.lane[i := AddClaim(k.lane[i], c, owner, stamp)])
  }

  function AddClaim(l: Lane, c: nat, owner: nat, stamp: nat): Lane {
    l.(fill := l.fill[c := Fill(stamp, owner, Fresh)])
  }

  predicate CanAdvance(k: Core, c: nat) {
    && c in k.home && c < FLOOR && k.home[c] < |k.lane|
    && var l := k.lane[k.home[c]];
       l.cell.word <= INVALID && c in l.fill && !Done(l.fill[c].phase)
  }

  /** One atomic step of the presenter that holds claim `c`. */
  function Advance(k: Core, c: nat): Core
    requires CanAdvance(k, c)
  {
    var i := k.home[c];
    WithLane(k, i, Step(k.claims, k.lane[i], c), c)
  }

  /** The ring with slot `i` replaced after a step of claim `c`; a step that ends in a
      drop also counts it. */
  function WithLane(k: Core, i: nat, t: Lane, c: nat): Core
    requires i < |k.lane| && c in t.fill
  {
    var drop := t.fill[c].phase.DoneDropped?;
    k.(lane := k.lane[i := t],
       dropped := if drop then k.dropped + 1 else k.dropped,
       gone := if drop then k.gone + {c} else k.gone)
  }

  lemma TakeKeepsLane(l: Lane, c: nat, owner: nat, stamp: nat)
    requires LaneInv(l) && c !in l.fill && 0 < c < FLOOR && stamp != 0
    ensures LaneInv(AddClaim(l, c, owner, stamp))
  {
    var t := AddClaim(l, c, owner, stamp);
    assert c !in l.marked;
    forall d | d in t.fill ensures ClaimOk(t, d) { assert d in l.fill ==> ClaimOk(l, d); }
  }

  lemma TakeKeepsShape(k: Core, i: nat, owner: nat, stamp: nat)
    requires Shape(k) && k.claims + 1 < FLOOR && i < k.n
    ensures Shape(TakeOn(k, i, owner, stamp))
  {
  }

  lemma TakeFills(k: Core, i: nat, owner: nat, stamp: nat)
    requires Shape(k) && k.claims + 1 < FLOOR && i < k.n
    ensures Shape(TakeOn(k, i, owner, stamp))
    ensures Fills(TakeOn(k, i, owner, stamp)) == Fills(k)[k.claims + 1 := Fill(stamp, owner, Fresh)]
  {
    TakeKeepsShape(k, i, owner, stamp);
  }

  lemma WithLaneKeepsShape(k: Core, i: nat, t: Lane, c: nat)
    requires Shape(k) && c in k.home && i == k.home[c] && SameBut(k.lane[i], t, c)
    ensures Shape(WithLane(k, i, t, c))
  {
  }

  lemma WithLaneFills(k: Core, i: nat, t: Lane, c: nat)
    requires Shape(k) && c in k.home && i == k.home[c] && SameBut(k.lane[i], t, c)
    ensures Shape(WithLane(k, i, t, c))
    ensures Fills(WithLane(k, i, t, c)) == Fills(k)[c := t.fill[c]]
  {
    WithLaneKeepsShape(k, i, t, c);
  }

  lemma LanesUpdate(k: Core, i: nat, t: Lane)
    requires LanesOk(k) && i < |k.lane| && LaneInv(t)
    ensures LanesOk(k.(lane := k.lane[i := t]))
  {
    var u := k.lane[i := t];
    forall j | 0 <= j < |u| ensures LaneInv(u[j]) { assert j != i ==> LaneInv(k.lane[j]); }
  }

  lemma DropsKept(fills: map<nat, Fill>, gone: set<nat>, dropped: nat, c: nat, f: Fill)
    requires DropsOk(fills, gone, dropped) && (c in fills ==> !fills[c].phase.DoneDropped?)
    ensures if f.phase.DoneDropped? then DropsOk(fills[c := f], gone + {c}, dropped + 1)
            else DropsOk(fills[c := f], gone, dropped)
  {
    assert c !in gone;
  }

  lemma TakeKeepsLanes(k: Core, i: nat, owner: nat, stamp: nat)
    requires Shape(k) && LanesOk(k) && stamp != 0 && k.claims + 1 < FLOOR && i < k.n
    ensures LanesOk(TakeOn(k, i, owner, stamp))
  {
    var c := k.claims + 1;
    assert c !in k.lane[i].fill;
    assert LaneInv(k.lane[i]);
    TakeKeepsLane(k.lane[i], c, owner, stamp);
    var u := AddClaim(k.lane[i], c, owner, stamp);
    LanesUpdate(k, i, u);
    LanesOnly(k.(lane := k.lane[i := u]), TakeOn(k, i, owner, stamp));
  }

  lemma TakeKeepsCore(k: Core, owner: nat, stamp: nat)
    requires CoreInv(k) && stamp != 0 && k.claims + 1 < FLOOR
    ensures CoreInv(Take(k, owner, stamp))
    ensures Fills(Take(k, owner, stamp)) == Fills(k)[k.claims + 1 := Fill(stamp, owner, Fresh)]
  {
    var c := k.claims + 1;
    var i := SlotFor(k.n, c);
    var t := Take(k, owner, stamp);
    TakeKeepsLanes(k, i, owner, stamp);
    TakeFills(k, i, owner, stamp);
    DropsKept(Fills(k), k.gone, k.dropped, c, Fill(stamp, owner, Fresh));
  }

  lemma LanesOnly(k: Core, t: Core)
    requires LanesOk(k) && t.lane == k.lane
    ensures LanesOk(t)
  {
  }

  lemma WithLaneDrops(k: Core, i: nat, t: Lane, c: nat)
    requires Shape(k) && DropsOk(Fills(k), k.gone, k.dropped) && i < |k.lane| && c in t.fill
    requires c in Fills(k) && !Fills(k)[c].phase.DoneDropped?
    ensures var u := WithLane(k, i, t, c); DropsOk(Fills(k)[c := t.fill[c]], u.gone, u.dropped)
  {
    DropsKept(Fills(k), k.gone, k.dropped, c, t.fill[c]);
  }

  lemma WithLaneKeepsCore(k: Core, i: nat, t: Lane, c: nat)
    requires CoreInv(k) && c in k.home && i == k.home[c] && !Fills(k)[c].phase.DoneDropped?
    requires SameBut(k.lane[i], t, c) && LanesOk(k.(lane := k.lane[i := t]))
    ensures CoreInv(WithLane(k, i, t, c))
    ensures Fills(WithLane(k, i, t, c)) == Fills(k)[c := t.fill[c]]
  {
    LanesOnly(k.(lane := k.lane[i := t]), WithLane(k, i, t, c));
    WithLaneFills(k, i, t, c);
    WithLaneDrops(k, i, t, c);
    hide Shape, SameBut, LanesOk, DropsOk, Fills, WithLane;
  }

  /** Every atomic step of every presenter keeps the ring's invariant, and changes the
      record of its own claim only. */
  lemma AdvanceKeepsCore(k: Core, c: nat)
    requires CoreInv(k) && c in k.home && !Done(Fills(k)[c].phase)
    ensures CanAdvance(k, c) && CoreInv(Advance(k, c))
    ensures Fills(Advance(k, c)) == Fills(k)[c := Step(k.claims, k.lane[k.home[c]], c).fill[c]]
    ensures Follows(Fills(k)[c], Fills(Advance(k, c))[c])
  {
    var i := k.home[c];
    var l := k.lane[i];
    assert LaneInv(l);
    StepKeepsLane(k.claims, l, c);
    StepFrame(k.claims, l, c);
    LanesUpdate(k, i, Step(k.claims, l, c));
    WithLaneKeepsCore(k, i, Step(k.claims, l, c), c);
  }

  // ------------------------------------------------------------ what follows

  lemma TakeKeepsHomes(k: Core, owner: nat, stamp: nat)
    requires Shape(k) && HomesOk(k)
    ensures HomesOk(Take(k, owner, stamp))
  {
  }

  lemma AdvanceKeepsHomes(k: Core, c: nat)
    requires HomesOk(k) && CanAdvance(k, c)
    ensures HomesOk(Advance(k, c))
  {
  }

  lemma MulGap(n: int, q: int)
    requires n > 0 && 0 < n * q
    ensures n <= n * q
  {
    if q > 0 {
      assert n * q == n + n * (q - 1);
    }
  }

  /** Two claims on one slot are at least a whole ring apart. */
  lemma SameSlotFarApart(n: nat, c: nat, d: nat)
    requires n > 0 && 0 < c < d && SlotFor(n, c) == SlotFor(n, d)
    ensures c + n <= d
  {
    var a, b := c - 1, d - 1;
    assert b - a == n * (b / n) - n * (a / n) == n * (b / n - a / n);
    MulGap(n, b / n - a / n);
  }

  /** A cell that names sequence `s` holds the stamp claim `s` published. */
  lemma CellIsExact(k: Core, i: nat)
    requires CoreInv(k) && i < k.n
    requires var w := k.lane[i].cell.word; 0 < w < FLOOR
    ensures var cell := k.lane[i].cell;
      && cell.word in k.home && cell.stamp == Fills(k)[cell.word].stamp && cell.stamp != 0
      && Shown(Fills(k)[cell.word].phase)
  {
    assert LaneInv(k.lane[i]);
    assert ClaimOk(k.lane[i], k.lane[i].cell.word);
  }

  /** A late claim costs no retained sample: only sequences the ring has already
      wrapped past are dropped. */
  lemma DroppedIsWrapped(k: Core, c: nat)
    requires CoreInv(k) && HomesOk(k) && c in k.home
    requires var ph := Fills(k)[c].phase; ph.Late? || ph.LateUnmarked? || ph.Lost? || ph.DoneDropped?
    ensures c + k.n <= k.claims
  {
    var l := k.lane[k.home[c]];
    assert LaneInv(l);
    DropHasNewerClaim(l, c);
    SameSlotFarApart(k.n, c, Rank(l.cell.word));
  }

  /** Every finished claim among the last `n` is published and still in its slot. */
  lemma RetainedIsPublished(k: Core, c: nat)
    requires CoreInv(k) && HomesOk(k) && c in k.home && Done(Fills(k)[c].phase)
    requires k.claims < c + k.n
    ensures k.lane[SlotFor(k.n, c)].cell == Cell(c, Fills(k)[c].stamp)
    ensures Fills(k)[c].stamp != 0
  {
    var l := k.lane[k.home[c]];
    assert LaneInv(l);
    forall d | d in l.fill ensures d <= c {
      if d > c {
        SameSlotFarApart(k.n, c, d);
      }
    }
    LastClaimPublished(l, c);
  }

  ghost predicate AllDone(k: Core)
    requires Shape(k)
  {
    forall c | c in k.home :: Done(Fills(k)[c].phase)
  }

  /** At rest every pending mark is zero. */
  lemma MarksAtRest(k: Core, i: nat)
    requires CoreInv(k) && AllDone(k) && i < k.n
    ensures k.lane[i].ahead == 0 && k.lane[i].marked == {}
  {
    var l := k.lane[i];
    assert LaneInv(l);
    forall c | c in l.fill ensures Done(l.fill[c].phase) {
      assert Fills(k)[c] == l.fill[c];
    }
    QuietLaneUnmarked(l);
  }

  ghost function PublishedClaims(fills: map<nat, Fill>): set<nat> {
    set c | c in fills && Shown(fills[c].phase)
  }

  /** Claims whose presenter is still between its claim and its outcome. */
  ghost function OpenClaims(fills: map<nat, Fill>): set<nat> {
    set c | c in fills && !Shown(fills[c].phase) && !fills[c].phase.DoneDropped?
  }

  /** The sequences after `lo` up to and including `hi`. */
  function Range(lo: nat, hi: nat): set<nat> { set c: nat | lo < c <= hi && After(c, lo) }

  predicate After(c: nat, lo: nat) { lo < c }

  lemma {:induction false} RangeSize(lo: nat, hi: nat)
    requires lo <= hi
    ensures |Range(lo, hi)| == hi - lo
  {
    if lo == hi {
      assert Range(lo, hi) == {};
    } else {
      RangeSize(lo, hi - 1);
      assert Range(lo, hi) == Range(lo, hi - 1) + {hi};
    }
  }

  lemma PhasesPartition(fills: map<nat, Fill>, gone: set<nat>, dropped: nat)
    requires DropsOk(fills, gone, dropped)
    ensures |fills.Keys| == |PublishedClaims(fills)| + dropped + |OpenClaims(fills)|
  {
    var p, o := PublishedClaims(fills), OpenClaims(fills);
    assert fills.Keys == p + gone + o;
    assert p !! gone && (p + gone) !! o;
    assert |p + gone| == |p| + |gone|;
  }

  /** Claim conservation: every claim is published, counted as dropped, or in progress. */
  lemma ClaimsConserved(k: Core)
    requires CoreInv(k)
    ensures k.claims == |PublishedClaims(Fills(k))| + k.dropped + |OpenClaims(Fills(k))|
  {
    var fills := Fills(k);
    assert fills.Keys == Range(0, k.claims);
    RangeSize(0, k.claims);
    PhasesPartition(fills, k.gone, k.dropped);
  }

  lemma ProgressPerSlot(k: Core, c: nat, i: nat)
    requires CoreInv(k) && CanAdvance(k, c) && i < k.n
    requires k.lane[i].cell.word <= INVALID && Advance(k, c).lane[i].cell.word <= INVALID
    ensures Advance(k, c).lane[i].cell != k.lane[i].cell ==>
      Progress(k.lane[i].cell.word) < Progress(Advance(k, c).lane[i].cell.word)
  {
    assert LaneInv(k.lane[i]);
    if i == k.home[c] {
      StepProgress(k.claims, k.lane[i], c);
    }
  }
}
