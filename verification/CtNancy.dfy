/** Nancy, the observer who collects the servers' decisions, and her verdict. */
module CtNancy {
  import opened CtServer
  import opened CtSystem
  import opened CtAgreement
  import opened CtTheorems

  datatype Verdict =
    | Approved(received: nat, color: string)
    | Unexpected(at: nat)
    | ConsensusError(at: nat)
    | TooFew(received: nat)

  /** The colour required of the outcome: that of all servers when they start equal, else none. */
  method RequiredConsensus(colors: seq<string>) returns (required: string)
    requires forall i :: 0 <= i < |colors| ==> colors[i] != ""
    ensures required != "" ==> forall i :: 0 <= i < |colors| ==> colors[i] == required
    ensures |colors| > 0 && (forall i :: 0 <= i < |colors| ==> colors[i] == colors[0]) ==> required == colors[0]
  {
    required := "";
    for i := 0 to |colors|
      invariant required != "" ==> i > 0 && forall k :: 0 <= k < i ==> colors[k] == required
      invariant i > 0 && (forall k :: 0 <= k < i ==> colors[k] == colors[0]) ==> required == colors[0]
    {
      if i == 0 {
        required := colors[i];
      } else if required != colors[i] {
        required := "";
      }
    }
  }

  predicate Known(color: string) { color == "red" || color == "blue" }

  /** The first `k` messages are decisions for one acceptable colour. */
  predicate Agreed(required: string, arrivals: seq<Message>, k: nat)
    requires k <= |arrivals|
  {
    k > 0 ==>
      && arrivals[0].Decide? && Known(arrivals[0].color) && (required != "" ==> arrivals[0].color == required)
      && forall j :: 0 <= j < k ==> arrivals[j] == arrivals[0]
  }

  /** What a verdict on the messages `arrivals` means. */
  predicate Judges(n: nat, required: string, arrivals: seq<Message>, v: Verdict) {
    match v
    case Approved(m, c) =>
      && n / 2 < m <= |arrivals| && Agreed(required, arrivals, m) && arrivals[0] == Decide(c)
    case Unexpected(k) =>
      k < |arrivals| && Agreed(required, arrivals, k) && !(arrivals[k].Decide? && Known(arrivals[k].color))
    case ConsensusError(k) =>
      && k < |arrivals| && Agreed(required, arrivals, k) && arrivals[k].Decide? && Known(arrivals[k].color)
      && ((required != "" && arrivals[k].color != required) || (k > 0 && arrivals[k] != arrivals[0]))
    case TooFew(m) =>
      m == |arrivals| <= n / 2 && Agreed(required, arrivals, m)
  }

  /** Nancy reads decisions until a majority has reported and `patience` more have come in. */
  method Nancy(n: nat, required: string, arrivals: seq<Message>, patience: nat) returns (v: Verdict)
    ensures Judges(n, required, arrivals, v)
    ensures v.Approved? ==> v.received == |arrivals| || v.received == n / 2 + 1 + patience
  {
    var received, consensus, left := 0, "", patience;
    while received < |arrivals| && (received <= n / 2 || left > 0)
      invariant received <= |arrivals|
      invariant left >= 0 && (received <= n / 2 ==> left == patience)
      invariant received > n / 2 ==> left + received == n / 2 + 1 + patience
      invariant received > 0 ==> Known(consensus) && (required != "" ==> consensus == required)
      invariant received == 0 ==> consensus == ""
      invariant forall k :: 0 <= k < received ==> arrivals[k] == Decide(consensus)
    {
      var m := arrivals[received];
      if !m.Decide? || !Known(m.color) {
        return Unexpected(received);
      }
      if (required != "" && m.color != required) || (consensus != "" && m.color != consensus) {
        return ConsensusError(received);
      }
      if received > n / 2 {
        left := left - 1;
      }
      consensus := m.color;
      received := received + 1;
    }
    if received <= n / 2 {
      return TooFew(received);
    }
    return Approved(received, consensus);
  }

  function Messages(inbox: seq<Packet>): seq<Message> {
    seq(|inbox|, k requires 0 <= k < |inbox| => inbox[k].msg)
  }

  function Senders(inbox: seq<Packet>, m: nat): set<nat>
    requires m <= |inbox|
  {
    set k: nat | k < m :: inbox[k].src
  }

  lemma {:induction false} SendersDistinct(inbox: seq<Packet>, m: nat)
    requires m <= |inbox|
    requires forall j, k :: 0 <= j < k < m ==> inbox[j].src != inbox[k].src
    ensures |Senders(inbox, m)| == m
  {
    if m == 0 {
      assert Senders(inbox, 0) == {};
    } else {
      SendersDistinct(inbox, m - 1);
      assert Senders(inbox, m) == Senders(inbox, m - 1) + {inbox[m - 1].src};
    }
  }

  /** Every message Nancy holds is a decision of a server that has decided that colour. */
  lemma InboxTrue(colors: seq<string>, run: seq<State>, k: nat, i: nat)
    requires IsRun(colors, run) && k < |run| && i < |run[k].inbox|
    ensures var p, st := run[k].inbox[i], run[k];
            && p.msg.Decide? && st.inbox[0].msg.Decide?
            && p.msg.color in colors && p.msg.color == st.inbox[0].msg.color
            && p.src < |st.servers| && st.servers[p.src].decided && st.servers[p.src].color == p.msg.color
  {
    RunInv(colors, run, k);
    Validity(colors, run, k);
    var st := run[k];
    var p, q := st.inbox[i], st.inbox[0];
    assert SentOk(|st.servers|, p, st.servers[p.src], st.sent);
    assert SentOk(|st.servers|, q, st.servers[q.src], st.sent);
    Agreement(colors, run, k, k, p, q);
  }

  /** Each server reports to Nancy once. */
  lemma InboxDistinct(colors: seq<string>, run: seq<State>, k: nat, i: nat, j: nat)
    requires IsRun(colors, run) && k < |run| && i < j < |run[k].inbox|
    ensures run[k].inbox[i].src != run[k].inbox[j].src
  {
    RunInv(colors, run, k);
    InboxTrue(colors, run, k, i);
    InboxTrue(colors, run, k, j);
  }

  ghost predicate Decided(st: State, q: set<nat>, c: string) {
    Majority(|st.servers|, q) && forall i :: i in q ==> st.servers[i].decided && st.servers[i].color == c
  }

  /** In every run on red and blue servers Nancy is never shown a wrong or contradicting message, and
      when she approves a colour, a majority of distinct servers has decided it. */
  lemma NancyVerdict(colors: seq<string>, run: seq<State>, k: nat, required: string, v: Verdict)
    requires IsRun(colors, run) && k < |run|
    requires forall i :: 0 <= i < |colors| ==> Known(colors[i])
    requires required != "" ==> forall i :: 0 <= i < |colors| ==> colors[i] == required
    requires Judges(|run[k].servers|, required, Messages(run[k].inbox), v)
    ensures v.Approved? || v.TooFew?
    ensures v.Approved? ==> v.color in colors && exists q :: Decided(run[k], q, v.color) && |q| == v.received
  {
    hide IsRun;
    var inbox := run[k].inbox;
    forall i | 0 <= i < |inbox|
      ensures inbox[0].msg.Decide? && Messages(inbox)[i].Decide? && Messages(inbox)[i].color in colors
              && Messages(inbox)[i].color == inbox[0].msg.color
    {
      InboxTrue(colors, run, k, i);
    }
    if v.Approved? {
      assert Messages(inbox)[0] == Decide(v.color);
      Approval(colors, run, k, v.received, v.color);
    }
  }

  lemma Approval(colors: seq<string>, run: seq<State>, k: nat, received: nat, c: string)
    requires IsRun(colors, run) && k < |run| && |run[k].servers| / 2 < received <= |run[k].inbox|
    requires run[k].inbox[0].msg == Decide(c)
    ensures exists q :: Decided(run[k], q, c) && |q| == received
  {
    var st, q := run[k], Senders(run[k].inbox, received);
    forall i, j | 0 <= i < j < received ensures st.inbox[i].src != st.inbox[j].src {
      InboxDistinct(colors, run, k, i, j);
    }
    SendersDistinct(st.inbox, received);
    forall s | s in q ensures s < |st.servers| && st.servers[s].decided && st.servers[s].color == c {
      var i: nat :| i < received && st.inbox[i].src == s;
      InboxTrue(colors, run, k, i);
    }
    assert Decided(st, q, c);
  }
}
