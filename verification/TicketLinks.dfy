/**
 Links between tickets (app/domain/work_items.py:432-550, app/db/models.py:975-1001):
 one row names two tickets, lower id first, and each sees the other.
 */
module TicketLinks {
  import opened Prelude

  datatype Link = Link(lower: nat, higher: nat)

  /** `_pair` */
  function Pair(a: nat, b: nat): Link {
    if a < b then Link(a, b) else Link(b, a)
  }

  /** The other ticket on a link. */
  function Other(link: Link, x: nat): nat {
    if link.lower == x then link.higher else link.lower
  }

  /** `linked_to`: from either side of the rows, in the order they were made. */
  function LinkedTo(links: seq<Link>, x: nat): seq<nat> {
    if links == [] then []
    else
      var before := LinkedTo(links[..|links| - 1], x);
      var last := links[|links| - 1];
      if last.lower == x || last.higher == x then before + [Other(last, x)] else before
  }

  function Dropped(links: seq<Link>, gone: Link): seq<Link> {
    if links == [] then []
    else
      var before := Dropped(links[..|links| - 1], gone);
      if links[|links| - 1] == gone then before else before + [links[|links| - 1]]
  }

  datatype Fault = NotStaff | ItselfOnly | AlreadyLinked

  datatype Noted = Noted(ticket: nat, other: nat, linked: bool)

  function Refusal(links: seq<Link>, a: nat, b: nat, staff: bool): Option<Fault> {
    if !staff then Some(NotStaff)
    else if a == b then Some(ItselfOnly)
    else if Pair(a, b) in links then Some(AlreadyLinked)
    else None
  }

  lemma {:induction false} NothingDropped(links: seq<Link>, gone: Link)
    requires gone !in links
    ensures Dropped(links, gone) == links
  {
    if links != [] {
      NothingDropped(links[..|links| - 1], gone);
      assert links[|links| - 1] in links;
    }
  }

  class LinkTable {
    var links: seq<Link>
    var events: seq<Noted>

    constructor ()
      ensures links == [] && events == []
    {
      links, events := [], [];
    }

    /** Both histories show it. */
    method NoteBoth(a: nat, b: nat, linked: bool)
      modifies this`events
      ensures events == old(events) + [Noted(a, b, linked), Noted(b, a, linked)]
    {
      events := events + [Noted(a, b, linked)];
      events := events + [Noted(b, a, linked)];
    }

    method LinkTickets(a: nat, b: nat, staff: bool) returns (fault: Option<Fault>)
      modifies this
      ensures fault == Refusal(old(links), a, b, staff)
      ensures links == if fault == None then old(links) + [Pair(a, b)] else old(links)
      ensures events == if fault == None then old(events) + [Noted(a, b, true), Noted(b, a, true)] else old(events)
    {
      if !staff {
        return Some(NotStaff);
      }
      if a == b {
        return Some(ItselfOnly);
      }
      if Pair(a, b) in links {
        return Some(AlreadyLinked);
      }
      links := links + [Pair(a, b)];
      NoteBoth(a, b, true);
      fault := None;
    }

    /** None is the refusal; otherwise whether there was a link to remove. */
    method UnlinkTickets(a: nat, b: nat, staff: bool) returns (removed: Option<bool>)
      modifies this
      ensures removed == if staff then Some(Pair(a, b) in old(links)) else None
      ensures links == if staff then Dropped(old(links), Pair(a, b)) else old(links)
      ensures events == if removed == Some(true) then old(events) + [Noted(a, b, false), Noted(b, a, false)]
              else old(events)
    {
      if !staff {
        return None;
      }
      if Pair(a, b) !in links {
        NothingDropped(links, Pair(a, b));
        return Some(false);
      }
      links := Dropped(links, Pair(a, b));
      NoteBoth(a, b, false);
      removed := Some(true);
    }
  }

  // ---- what every table of links keeps -----------------------------------------------

  datatype Action = LinkThem(a: nat, b: nat, staff: bool) | UnlinkThem(a: nat, b: nat, staff: bool)

  function Next(links: seq<Link>, action: Action): seq<Link> {
    match action
    case LinkThem(a, b, staff) => if Refusal(links, a, b, staff) == None then links + [Pair(a, b)] else links
    case UnlinkThem(a, b, staff) => if staff then Dropped(links, Pair(a, b)) else links
  }

  function Exec(links: seq<Link>, run: seq<Action>): seq<Link>
    decreases |run|
  {
    if run == [] then links else Exec(Next(links, run[0]), run[1..])
  }

  /** The table's two constraints: the lower ticket first, and no pair twice. */
  ghost predicate LinksOk(links: seq<Link>) {
    Distinct(links) && forall link :: link in links ==> link.lower < link.higher
  }

  lemma {:induction false} DroppedIs(links: seq<Link>, gone: Link)
    requires Distinct(links)
    ensures Distinct(Dropped(links, gone))
    ensures forall link :: link in Dropped(links, gone) <==> link in links && link != gone
  {
    if links != [] {
      var n := |links| - 1;
      assert links == links[..n] + [links[n]];
      DistinctSnoc(links[..n], links[n]);
      DroppedIs(links[..n], gone);
      DistinctSnoc(Dropped(links[..n], gone), links[n]);
    }
  }

  lemma ActionKeepsLinks(links: seq<Link>, action: Action)
    requires LinksOk(links)
    ensures LinksOk(Next(links, action))
  {
    match action
    case LinkThem(a, b, staff) => DistinctSnoc(links, Pair(a, b));
    case UnlinkThem(a, b, staff) => DroppedIs(links, Pair(a, b));
  }

  lemma {:induction false} RunKeepsLinks(links: seq<Link>, run: seq<Action>)
    requires LinksOk(links)
    ensures LinksOk(Exec(links, run))
    decreases |run|
  {
    if run != [] {
      ActionKeepsLinks(links, run[0]);
      RunKeepsLinks(Next(links, run[0]), run[1..]);
    }
  }

  /** What a ticket sees: the tickets it shares a row with, once each, never itself. */
  lemma {:induction false} LinkedToMeans(links: seq<Link>, x: nat)
    requires LinksOk(links)
    ensures forall y :: y in LinkedTo(links, x) <==> x != y && Pair(x, y) in links
    ensures Distinct(LinkedTo(links, x))
  {
    if links != [] {
      var n := |links| - 1;
      assert links == links[..n] + [links[n]];
      DistinctSnoc(links[..n], links[n]);
      LinkedToMeans(links[..n], x);
      DistinctSnoc(LinkedTo(links[..n], x), Other(links[n], x));
      forall y ensures y in LinkedTo(links, x) <==> x != y && Pair(x, y) in links {
        assert (links[n].lower == x || links[n].higher == x) ==> (Pair(x, y) == links[n] <==> y == Other(links[n], x));
      }
    }
  }

  /** Through any links and unlinks, linking is symmetric, free of duplicates, and never of a ticket to itself. */
  lemma LinkedToIsSymmetric(run: seq<Action>, x: nat, y: nat)
    ensures var links := Exec([], run);
            && (y in LinkedTo(links, x) <==> x in LinkedTo(links, y))
            && Distinct(LinkedTo(links, x)) && x !in LinkedTo(links, x)
  {
    RunKeepsLinks([], run);
    LinkedToMeans(Exec([], run), x);
    LinkedToMeans(Exec([], run), y);
    assert x != y ==> Pair(x, y) == Pair(y, x);
  }

  /** A new link shows at the end of both lists and nowhere else; taking it back restores every list. */
  lemma LinkThenUnlink(links: seq<Link>, a: nat, b: nat, x: nat)
    requires LinksOk(links) && Refusal(links, a, b, true) == None
    ensures var linked := Next(links, LinkThem(a, b, true));
            && LinkedTo(linked, x) == LinkedTo(links, x) + (if x == a then [b] else if x == b then [a] else [])
            && Next(linked, UnlinkThem(b, a, true)) == links
  {
    var linked := links + [Pair(a, b)];
    assert linked[..|links|] == links;
    NothingDropped(links, Pair(a, b));
    assert Pair(b, a) == Pair(a, b);
  }
}
