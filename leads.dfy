/** The admin leads page: the status filter, the counters, the status labels and the WhatsApp link. */
module Leads {
  import opened Common
  import opened Seqs
  import opened Text
  import opened Http
  import opened Browser

  datatype LeadStatus = Novo | Contatado | VisitaAgendada | Negociacao | Convertido | Perdido

  datatype Lead = Lead(id: int, nome: string, email: string, telefone: string, status: LeadStatus)

  /** The query `fetchLeads` sends: `status_filter` only when a filter is chosen (`''` counts as none). */
  function LeadsQuery(statusFilter: Option<string>): (q: Query)
    ensures q != [] <==> Truthy(statusFilter)
    ensures q != [] ==> q == [("status_filter", statusFilter.value)]
  {
    if statusFilter.Some? && statusFilter.value != "" then [("status_filter", statusFilter.value)] else []
  }

  /** The URL `fetchLeads` requests: the bare `?` without a filter, `?status_filter=<value>` with one. */
  function LeadsUrl(statusFilter: Option<string>): (url: string)
    ensures StartsWith(url, "/api/leads/?")
    ensures url == "/api/leads/?" <==> !Truthy(statusFilter)
    ensures Truthy(statusFilter) ==> url == "/api/leads/?status_filter=" + statusFilter.value
  {
    "/api/leads/?" + QueryString(LeadsQuery(statusFilter))
  }

  predicate IsNovo(l: Lead) { l.status == Novo }
  predicate IsConvertido(l: Lead) { l.status == Convertido }
  predicate IsNegociacao(l: Lead) { l.status == Negociacao }
  predicate IsNovoOrConvertido(l: Lead) { IsNovo(l) || IsConvertido(l) }

  datatype Stats = Stats(total: nat, novos: nat, convertidos: nat, emNegociacao: nat)

  function ComputeStats(leads: seq<Lead>): Stats {
    Stats(|leads|, |Filter(leads, IsNovo)|, |Filter(leads, IsConvertido)|, |Filter(leads, IsNegociacao)|)
  }

  /** A lead has one status, so the three counters together never exceed the total. */
  lemma {:induction false} StatsBounds(leads: seq<Lead>)
    ensures ComputeStats(leads).total == |leads|
    ensures ComputeStats(leads).novos + ComputeStats(leads).convertidos + ComputeStats(leads).emNegociacao
            <= ComputeStats(leads).total
  {
    FilterDisjoint(leads, IsNovo, IsConvertido, IsNovoOrConvertido);
    FilterDisjoint(leads, IsNovoOrConvertido, IsNegociacao, _ => true);
  }

  /** The conversion rate: `'0'` with no leads, otherwise the share of converted leads (formatting left out). */
  datatype Rate = NoLeads | Ratio(convertidos: nat, total: nat)

  function ConversionRate(leads: seq<Lead>): (r: Rate)
    ensures r == NoLeads <==> leads == []
    ensures r.Ratio? ==> 0 < r.total == |leads| && r.convertidos <= r.total
    ensures r.Ratio? ==> r.total == ComputeStats(leads).total && r.convertidos == ComputeStats(leads).convertidos
  {
    if |leads| > 0 then Ratio(|Filter(leads, IsConvertido)|, |leads|) else NoLeads
  }

  function StatusColor(s: LeadStatus): string {
    match s
    case Novo => "blue"
    case Contatado => "cyan"
    case VisitaAgendada => "orange"
    case Negociacao => "purple"
    case Convertido => "green"
    case Perdido => "red"
  }

  function StatusText(s: LeadStatus): string {
    match s
    case Novo => "Novo"
    case Contatado => "Contatado"
    case VisitaAgendada => "Visita Agendada"
    case Negociacao => "Negociação"
    case Convertido => "Convertido"
    case Perdido => "Perdido"
  }

  /** Every status has its own colour and its own label. */
  lemma StatusLabelsDistinct(a: LeadStatus, b: LeadStatus)
    ensures StatusColor(a) == StatusColor(b) ==> a == b
    ensures StatusText(a) == StatusText(b) ==> a == b
  {
  }

  /** `https://wa.me/55` followed by the digits of the phone number, in order. */
  function WhatsAppLink(telefone: string): (link: string)
    ensures StartsWith(link, "https://wa.me/55")
    ensures forall c :: c in link[|"https://wa.me/55"|..] <==> c in telefone && IsDigit(c)
  {
    "https://wa.me/55" + Filter(telefone, IsDigit)
  }

  /** The digits keep their order: the link for `a + b` carries `a`'s digits, then `b`'s. */
  lemma WhatsAppLinkOrder(a: string, b: string)
    ensures WhatsAppLink(a + b) == WhatsAppLink(a) + WhatsAppLink(b)[|"https://wa.me/55"|..]
  {
    FilterAppend(a, b, IsDigit);
  }

  /** A number already written as digits only is used as it is. */
  lemma WhatsAppLinkDigits(telefone: string)
    requires forall i :: 0 <= i < |telefone| ==> IsDigit(telefone[i])
    ensures WhatsAppLink(telefone) == "https://wa.me/55" + telefone
  {
    FilterKeepsAll(telefone, IsDigit);
  }

  /**
   * A number written with separators around the area code, such as `(11) 98765-4321`
   * split as `(` + `11` + `) ` + `987654321`, links to the area code followed by the
   * number: the separators, having no digits, vanish.
   */
  lemma WhatsAppLinkFormatted(open: string, ddd: string, close: string, num: string)
    requires forall i :: 0 <= i < |open| ==> !IsDigit(open[i])
    requires forall i :: 0 <= i < |close| ==> !IsDigit(close[i])
    requires forall i :: 0 <= i < |ddd| ==> IsDigit(ddd[i])
    requires forall i :: 0 <= i < |num| ==> IsDigit(num[i])
    ensures WhatsAppLink(open + ddd + close + num) == "https://wa.me/55" + ddd + num
  {
    FilterKeepsAll(ddd, IsDigit);
    FilterKeepsAll(num, IsDigit);
    FilterKeepsNone(open, IsDigit);
    FilterKeepsNone(close, IsDigit);
    DropSeparators(open, ddd, close, num, IsDigit);
  }

  lemma DropSeparators<T>(open: seq<T>, a: seq<T>, close: seq<T>, b: seq<T>, p: T -> bool)
    requires Filter(open, p) == [] && Filter(close, p) == []
    requires Filter(a, p) == a && Filter(b, p) == b
    ensures Filter(open + a + close + b, p) == a + b
  {
    var x := open + a;
    var y := x + close;
    FilterAppend(open, a, p);
    assert Filter(x, p) == a;
    FilterAppend(x, close, p);
    assert Filter(y, p) == a;
    FilterAppend(y, b, p);
  }

  class LeadsPage {
    var leads: seq<Lead>
    var loading: bool
    var statusFilter: Option<string>

    constructor ()
      ensures leads == [] && !loading && statusFilter == None
    {
      leads := [];
      loading := false;
      statusFilter := None;
    }

    /** `fetchLeads`: the list replaced on success, kept on failure; loading ends either way. */
    method FetchLeads(reply: Settled<seq<Lead>>) returns (url: string)
      modifies this`leads, this`loading
      ensures url == LeadsUrl(statusFilter)
      ensures leads == if reply.Fulfilled? then reply.value else old(leads)
      ensures !loading
    {
      loading := true;
      var params: Query := [];
      if statusFilter.Some? && statusFilter.value != "" {
        params := params + [("status_filter", statusFilter.value)];
      }
      url := "/api/leads/?" + QueryString(params);
      if reply.Fulfilled? {
        leads := reply.value;
      }
      loading := false;
    }

    /** Choosing a filter re-runs the fetch with it. */
    method ChangeFilter(value: Option<string>, reply: Settled<seq<Lead>>) returns (url: string)
      modifies this`statusFilter, this`leads, this`loading
      ensures statusFilter == value && url == LeadsUrl(value)
      ensures leads == if reply.Fulfilled? then reply.value else old(leads)
      ensures !loading
    {
      statusFilter := value;
      url := FetchLeads(reply);
    }

    /** `handleUpdateStatus`: refetch only after the PUT succeeded. */
    method HandleUpdateStatus(putReply: Settled<()>, fetchReply: Settled<seq<Lead>>) returns (refetched: bool)
      modifies this`leads, this`loading
      ensures refetched <==> putReply.Fulfilled?
      ensures leads == if refetched && fetchReply.Fulfilled? then fetchReply.value else old(leads)
      // a failed PUT leaves the page alone; a refetch ends with loading off
      ensures !refetched ==> unchanged(this)
      ensures refetched ==> !loading
    {
      refetched := putReply.Fulfilled?;
      if refetched {
        var _ := FetchLeads(fetchReply);
      }
    }

    /** `handleDelete` after the dialog closes: nothing unless confirmed; refetch only after the DELETE succeeded. */
    method HandleDelete(confirmed: bool, deleteReply: Settled<()>, fetchReply: Settled<seq<Lead>>) returns (refetched: bool)
      modifies this`leads, this`loading
      ensures refetched <==> confirmed && deleteReply.Fulfilled?
      ensures leads == if refetched && fetchReply.Fulfilled? then fetchReply.value else old(leads)
      // a cancelled dialog or a failed DELETE leaves the page alone; a refetch ends with loading off
      ensures !refetched ==> unchanged(this)
      ensures refetched ==> !loading
    {
      refetched := confirmed && deleteReply.Fulfilled?;
      if refetched {
        var _ := FetchLeads(fetchReply);
      }
    }
  }
}
