/**
 * The admin visits page: the calendar cells, the upcoming-visits list and its
 * counters. Times are integers (milliseconds); which calendar day a time falls on is
 * the parameter `day`.
 */
module Visitas {
  import opened Seqs
  import opened Http

  datatype VisitaStatus = Agendada | Confirmada | Realizada | Cancelada

  datatype Visita = Visita(id: int, nomeCliente: string, dataHora: int, status: VisitaStatus)

  datatype BadgeType = Success | Error | Warning

  /** The badge a visit shows in its calendar cell. */
  function Badge(s: VisitaStatus): (b: BadgeType)
    ensures b == Success <==> s == Confirmada
    ensures b == Error <==> s == Cancelada
    ensures b == Warning <==> s == Agendada || s == Realizada
  {
    match s
    case Confirmada => Success
    case Cancelada => Error
    case Agendada => Warning
    case Realizada => Warning
  }

  /** One calendar entry: the badge, and `HH:mm - <client>` with the time rendered by `hhmm`. */
  datatype ListItem = ListItem(kind: BadgeType, content: string)

  function Item(v: Visita, hhmm: int -> string): ListItem {
    ListItem(Badge(v.status), hhmm(v.dataHora) + " - " + v.nomeCliente)
  }

  /** The visits that fall on the cell's day, in list order. */
  function OnDay(visitas: seq<Visita>, day: int -> int, cellDay: int): (r: seq<Visita>)
    ensures |r| <= |visitas|
    ensures forall v :: v in r ==> v in visitas && day(v.dataHora) == cellDay
  {
    Filter(visitas, (v: Visita) => day(v.dataHora) == cellDay)
  }

  /** `getListData(value)`: the visits on the cell's day, in list order, as calendar entries. */
  function GetListData(visitas: seq<Visita>, day: int -> int, cellDay: int, hhmm: int -> string): (items: seq<ListItem>)
    ensures |items| == |OnDay(visitas, day, cellDay)| <= |visitas|
    ensures forall i :: 0 <= i < |items| ==> items[i] == Item(OnDay(visitas, day, cellDay)[i], hhmm)
  {
    Map(OnDay(visitas, day, cellDay), v => Item(v, hhmm))
  }

  /** A visit contributes to a cell exactly when it falls on that cell's day. */
  lemma OnDayMembership(visitas: seq<Visita>, day: int -> int, cellDay: int, v: Visita)
    ensures v in OnDay(visitas, day, cellDay) <==> v in visitas && day(v.dataHora) == cellDay
  {
  }

  /** Each visit is no earlier than the one before it. */
  predicate SortedByTime(s: seq<Visita>) {
    |s| < 2 || (s[0].dataHora <= s[1].dataHora && SortedByTime(s[1..]))
  }

  /** Sorted neighbour by neighbour means sorted pair by pair. */
  lemma {:induction false} SortedPairwise(s: seq<Visita>)
    requires SortedByTime(s)
    ensures forall i, j :: 0 <= i < j < |s| ==> s[i].dataHora <= s[j].dataHora
  {
    if |s| > 1 {
      var t := s[1..];
      SortedPairwise(t);
      forall i, j | 0 <= i < j < |s|
        ensures s[i].dataHora <= s[j].dataHora
      {
        assert t[j - 1] == s[j];
        if i > 0 {
          assert t[i - 1] == s[i];
        } else if j > 1 {
          assert t[0] == s[1];
        }
      }
    }
  }

  /** Put `v` before the first visit that is not earlier than it. */
  function Insert(v: Visita, s: seq<Visita>): (r: seq<Visita>)
    requires SortedByTime(s)
    ensures |r| == |s| + 1
    ensures r[0] == v || (|s| > 0 && r[0] == s[0])
    ensures SortedByTime(r)
  {
    if s == [] || v.dataHora <= s[0].dataHora then
      assert ([v] + s)[1..] == s;
      [v] + s
    else
      var rest := Insert(v, s[1..]);
      assert ([s[0]] + rest)[1..] == rest;
      [s[0]] + rest
  }

  /** Inserting adds exactly the one visit. */
  lemma {:induction false} InsertMultiset(v: Visita, s: seq<Visita>)
    requires SortedByTime(s)
    ensures multiset(Insert(v, s)) == multiset(s) + multiset{v}
  {
    if s != [] && v.dataHora > s[0].dataHora {
      InsertMultiset(v, s[1..]);
      assert s == [s[0]] + s[1..];
    }
  }

  /** `sort((a, b) => a.data_hora - b.data_hora)`: ascending by time. */
  function SortByTime(s: seq<Visita>): (r: seq<Visita>)
    ensures SortedByTime(r)
    ensures |r| == |s|
  {
    if s == [] then [] else Insert(s[0], SortByTime(s[1..]))
  }

  /** Sorting neither adds nor drops a visit. */
  lemma {:induction false} SortByTimeMultiset(s: seq<Visita>)
    ensures multiset(SortByTime(s)) == multiset(s)
  {
    if s != [] {
      var t := SortByTime(s[1..]);
      calc {
        multiset(SortByTime(s));
        multiset(Insert(s[0], t));
        { InsertMultiset(s[0], t); }
        multiset(t) + multiset{s[0]};
        { SortByTimeMultiset(s[1..]); }
        multiset(s[1..]) + multiset{s[0]};
        { assert s == [s[0]] + s[1..]; }
        multiset(s);
      }
    }
  }

  predicate IsUpcoming(v: Visita, startOfToday: int) {
    v.dataHora > startOfToday
  }

  /** The visits strictly after the start of today, in list order. */
  function Upcoming(visitas: seq<Visita>, startOfToday: int): (r: seq<Visita>)
    ensures |r| <= |visitas|
    ensures forall v :: v in r <==> v in visitas && v.dataHora > startOfToday
    ensures multiset(r) <= multiset(visitas)
  {
    var keep := (v: Visita) => IsUpcoming(v, startOfToday);
    FilterSubMultiset(visitas, keep);
    Filter(visitas, keep)
  }

  /** `proximasVisitas`: the visits strictly after the start of today, earliest first. */
  function ProximasVisitas(visitas: seq<Visita>, startOfToday: int): (r: seq<Visita>)
    ensures forall i, j :: 0 <= i < j < |r| ==> r[i].dataHora <= r[j].dataHora
    ensures multiset(r) == multiset(Upcoming(visitas, startOfToday))
  {
    var upcoming := Upcoming(visitas, startOfToday);
    SortByTimeMultiset(upcoming);
    SortedPairwise(SortByTime(upcoming));
    SortByTime(upcoming)
  }

  /** A visit is listed iff it is one of the page's visits and starts after the start of today. */
  lemma ProximasMembership(visitas: seq<Visita>, startOfToday: int, v: Visita)
    ensures v in ProximasVisitas(visitas, startOfToday) <==> v in visitas && v.dataHora > startOfToday
  {
    var r := ProximasVisitas(visitas, startOfToday);
    assert v in r <==> v in multiset(r);
    assert v in Upcoming(visitas, startOfToday) <==> v in multiset(Upcoming(visitas, startOfToday));
  }

  datatype Stats = Stats(total: nat, agendadas: nat, confirmadas: nat, hoje: nat)

  predicate IsAgendada(v: Visita) { v.status == Agendada }
  predicate IsConfirmada(v: Visita) { v.status == Confirmada }

  function ComputeStats(visitas: seq<Visita>, startOfToday: int, day: int -> int, today: int): Stats {
    var proximas := ProximasVisitas(visitas, startOfToday);
    Stats(|proximas|, |Filter(proximas, IsAgendada)|, |Filter(proximas, IsConfirmada)|,
          |Filter(proximas, (v: Visita) => day(v.dataHora) == today)|)
  }

  /** Each counter counts upcoming visits, and no visit is both scheduled and confirmed. */
  lemma {:induction false} StatsBounds(visitas: seq<Visita>, startOfToday: int, day: int -> int, today: int)
    ensures ComputeStats(visitas, startOfToday, day, today).total == |Upcoming(visitas, startOfToday)|
    ensures ComputeStats(visitas, startOfToday, day, today).agendadas + ComputeStats(visitas, startOfToday, day, today).confirmadas
            <= ComputeStats(visitas, startOfToday, day, today).total
    ensures ComputeStats(visitas, startOfToday, day, today).hoje <= ComputeStats(visitas, startOfToday, day, today).total
  {
    var proximas := ProximasVisitas(visitas, startOfToday);
    assert |proximas| == |multiset(proximas)|;
    FilterDisjoint(proximas, IsAgendada, IsConfirmada, _ => true);
  }

  function StatusColor(s: VisitaStatus): string {
    match s
    case Agendada => "blue"
    case Confirmada => "green"
    case Realizada => "cyan"
    case Cancelada => "red"
  }

  function StatusText(s: VisitaStatus): string {
    match s
    case Agendada => "Agendada"
    case Confirmada => "Confirmada"
    case Realizada => "Realizada"
    case Cancelada => "Cancelada"
  }

  /** Every status has its own colour and its own label. */
  lemma StatusLabelsDistinct(a: VisitaStatus, b: VisitaStatus)
    ensures StatusColor(a) == StatusColor(b) ==> a == b
    ensures StatusText(a) == StatusText(b) ==> a == b
  {
  }

  class VisitasPage {
    var visitas: seq<Visita>
    var loading: bool

    constructor ()
      ensures visitas == [] && !loading
    {
      visitas := [];
      loading := false;
    }

    /** `fetchVisitas`: the list replaced on success, kept on failure; loading ends either way. */
    method FetchVisitas(reply: Settled<seq<Visita>>)
      modifies this`visitas, this`loading
      ensures visitas == if reply.Fulfilled? then reply.value else old(visitas)
      ensures !loading
    {
      loading := true;
      if reply.Fulfilled? {
        visitas := reply.value;
      }
      loading := false;
    }

    /** `handleUpdateStatus`: refetch only after the PUT succeeded. */
    method HandleUpdateStatus(putReply: Settled<()>, fetchReply: Settled<seq<Visita>>) returns (refetched: bool)
      modifies this`visitas, this`loading
      ensures refetched <==> putReply.Fulfilled?
      ensures visitas == if refetched && fetchReply.Fulfilled? then fetchReply.value else old(visitas)
      // a failed PUT leaves the page alone; a refetch ends with loading off
      ensures !refetched ==> unchanged(this)
      ensures refetched ==> !loading
    {
      refetched := putReply.Fulfilled?;
      if refetched {
        FetchVisitas(fetchReply);
      }
    }

    /** `handleDelete` after the dialog closes: nothing unless confirmed; refetch only after the DELETE succeeded. */
    method HandleDelete(confirmed: bool, deleteReply: Settled<()>, fetchReply: Settled<seq<Visita>>) returns (refetched: bool)
      modifies this`visitas, this`loading
      ensures refetched <==> confirmed && deleteReply.Fulfilled?
      ensures visitas == if refetched && fetchReply.Fulfilled? then fetchReply.value else old(visitas)
      // a cancelled dialog or a failed DELETE leaves the page alone; a refetch ends with loading off
      ensures !refetched ==> unchanged(this)
      ensures refetched ==> !loading
    {
      refetched := confirmed && deleteReply.Fulfilled?;
      if refetched {
        FetchVisitas(fetchReply);
      }
    }
  }
}
