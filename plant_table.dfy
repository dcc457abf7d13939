/**
 * `PLANT_DATA` of the power aggregator (src/wind_power_sum/run.py): per plant type, an
 * insertion-ordered dictionary from plant id to a record of the plant's last request
 * and last KPI report. Entries created by a KPI message carry no request fields and
 * entries created by a request carry no KPI fields; reading a missing field raises
 * Python's KeyError, which the model returns as a value.
 */
module PlantTable {
  import opened Common
  import opened Allocation

  /** The `"timestamp"` field: the label a request carried, or the integer 0 written after a reply. */
  datatype Stamp = Label(text: string) | Cleared

  /** The fields `on_message_request` writes together. */
  datatype RequestFields = RequestFields(replyTopic: string, amount: real, stamp: Stamp, powerSupply: real)

  /** The fields every KPI message writes. */
  datatype KpiFields = KpiFields(status: string, eff: real, prod: real, cper: real)

  /** The optional `namount` / `npower` pair of a KPI message. */
  datatype Nominal = Nominal(amount: real, power: real)

  datatype Entry = Entry(request: Option<RequestFields>, kpi: Option<KpiFields>, nominal: Option<Nominal>, priority: Option<real>)

  /** An insertion-ordered dictionary: `order` lists the keys as Python iterates them. */
  datatype Table = Table(order: seq<string>, rows: map<string, Entry>)

  datatype Result<T> = Ok(value: T) | KeyError(key: string)

  datatype RequestMsg = RequestMsg(timestamp: string, plantId: string, replyTopic: string, amount: real)

  datatype KpiMsg = KpiMsg(plantId: string, status: string, eff: real, prod: real, cper: real, nominal: Option<Nominal>)

  /** One supply message: published on `topic` with the flushing request's timestamp. */
  datatype Reply = Reply(topic: string, timestamp: string, amount: real)

  const EMPTY: Entry := Entry(None, None, None, None)

  ghost predicate WellFormed(t: Table)
  {
    && (forall i, j :: 0 <= i < j < |t.order| ==> t.order[i] != t.order[j])
    && (forall id :: id in t.rows <==> id in t.order)
  }

  // ---------------------------------------------------------------------------
  // Plant ids: `str(j)` for j in range(N).
  // ---------------------------------------------------------------------------

  function Digit(d: nat): char
    requires d < 10
  {
    "0123456789"[d]
  }

  /** Python's `str(n)` for a natural number. */
  function DecimalString(n: nat): (s: string)
    ensures |s| >= 1
    ensures n < 10 <==> |s| == 1
  {
    if n < 10 then [Digit(n)] else DecimalString(n / 10) + [Digit(n % 10)]
  }

  /** Different numbers print differently, so the initial ids are distinct. */
  lemma {:induction false} DecimalStringInjective(a: nat, b: nat)
    requires DecimalString(a) == DecimalString(b)
    ensures a == b
  {
    if a >= 10 && b >= 10 {
      var sa, sb := DecimalString(a), DecimalString(b);
      assert sa[|sa| - 1] == Digit(a % 10) && sb[|sb| - 1] == Digit(b % 10);
      assert sa[..|sa| - 1] == DecimalString(a / 10);
      assert sb[..|sb| - 1] == DecimalString(b / 10);
      DecimalStringInjective(a / 10, b / 10);
    }
  }

  function InitialEntry(id: string): Entry
  {
    Entry(Some(RequestFields("", 0.0, Label(id), 0.0)), Some(KpiFields("offline", 0.5, 0.5, 0.5)), Some(Nominal(0.0, 0.0)), Some(0.0))
  }

  /** The table built at start-up for `n` plants, ids "0" to "n-1". */
  function InitialTable(n: nat): (t: Table)
    ensures |t.order| == n
    ensures forall i :: 0 <= i < n ==> t.order[i] == DecimalString(i)
    ensures forall id :: id in t.rows <==> id in t.order
    ensures forall id :: id in t.rows ==> t.rows[id] == InitialEntry(id)
  {
    var order := seq(n, i requires 0 <= i => DecimalString(i));
    Table(order, map id | id in order :: InitialEntry(id))
  }

  lemma InitialTableWellFormed(n: nat)
    ensures WellFormed(InitialTable(n))
  {
    var t := InitialTable(n);
    forall i, j | 0 <= i < j < |t.order| ensures t.order[i] != t.order[j] {
      if t.order[i] == t.order[j] {
        DecimalStringInjective(i, j);
      }
    }
  }

  // ---------------------------------------------------------------------------
  // Writes.
  // ---------------------------------------------------------------------------

  /** The entry for `id`, or an empty record when the key is new (`PLANT_DATA[typ][id] = {}`). */
  function Row(t: Table, id: string): Entry
  {
    if id in t.rows then t.rows[id] else EMPTY
  }

  /** Assigning a key: an existing key keeps its place, a new key goes last. */
  function Put(t: Table, id: string, e: Entry): (r: Table)
    requires WellFormed(t)
    ensures WellFormed(r)
    ensures r.rows == t.rows[id := e]
    ensures id in t.rows ==> r.order == t.order
    ensures id !in t.rows ==> r.order == t.order + [id]
  {
    Table(if id in t.rows then t.order else t.order + [id], t.rows[id := e])
  }

  /** `on_message_request`: the plant's request fields are overwritten and `powersupply` set to 0. */
  function ApplyRequest(t: Table, m: RequestMsg): (r: Table)
    requires WellFormed(t)
    ensures WellFormed(r)
    ensures m.plantId in r.rows && r.rows[m.plantId].request == Some(RequestFields(m.replyTopic, m.amount, Label(m.timestamp), 0.0))
    ensures forall id :: id in t.rows && id != m.plantId ==> id in r.rows && r.rows[id] == t.rows[id]
  {
    Put(t, m.plantId, Row(t, m.plantId).(request := Some(RequestFields(m.replyTopic, m.amount, Label(m.timestamp), 0.0))))
  }

  /**
   * `on_message_filter_kpi`: status and ratios are overwritten; when the message carries
   * `namount` and `npower` those are stored too, and the priority becomes their
   * quotient when `npower > 0`.
   */
  function ApplyKpi(t: Table, m: KpiMsg): (r: Table)
    requires WellFormed(t)
    ensures WellFormed(r)
    ensures m.plantId in r.rows
    ensures r.rows[m.plantId].kpi == Some(KpiFields(m.status, m.eff, m.prod, m.cper))
    ensures r.rows[m.plantId].request == Row(t, m.plantId).request
    ensures m.nominal.Some? && m.nominal.value.power > 0.0 ==>
      r.rows[m.plantId].priority == Some(m.nominal.value.amount / m.nominal.value.power)
    ensures !(m.nominal.Some? && m.nominal.value.power > 0.0) ==> r.rows[m.plantId].priority == Row(t, m.plantId).priority
    ensures forall id :: id in t.rows && id != m.plantId ==> id in r.rows && r.rows[id] == t.rows[id]
  {
    var e := Row(t, m.plantId).(kpi := Some(KpiFields(m.status, m.eff, m.prod, m.cper)));
    var e' := match m.nominal
      case None => e
      case Some(n) => e.(nominal := Some(n), priority := if n.power > 0.0 then Some(n.amount / n.power) else e.priority);
    Put(t, m.plantId, e')
  }

  /**
   * `on_message_hydrogen_kpi` as written: it tests the FILTER table for the id. An id
   * absent there wipes (or creates) the hydrogen entry before writing the KPI fields;
   * an id present there but absent from the hydrogen table raises KeyError.
   */
  function HydrogenKpiAsWritten(filter: Table, hydrogen: Table, m: KpiMsg): (r: Result<Table>)
    requires WellFormed(hydrogen)
    ensures r.KeyError? <==> m.plantId in filter.rows && m.plantId !in hydrogen.rows
  {
    if m.plantId !in filter.rows then Ok(ApplyKpi(Put(hydrogen, m.plantId, EMPTY), m))
    else if m.plantId !in hydrogen.rows then KeyError(m.plantId)
    else Ok(ApplyKpi(hydrogen, m))
  }

  /** A hydrogen entry whose id the filter table lacks loses its pending request. */
  lemma HydrogenKpiWipesRequest()
    ensures
      var hydrogen := Table(["0"], map["0" := InitialEntry("0")]);
      var m := KpiMsg("0", "online", 1.0, 1.0, 1.0, None);
      && WellFormed(hydrogen)
      && HydrogenKpiAsWritten(Table([], map[]), hydrogen, m).Ok?
      && HydrogenKpiAsWritten(Table([], map[]), hydrogen, m).value.rows["0"].request == None
      && ApplyKpi(hydrogen, m).rows["0"].request == InitialEntry("0").request
  {
    var hydrogen := Table(["0"], map["0" := InitialEntry("0")]);
    assert WellFormed(hydrogen);
  }

  /** An id the filter table has but the hydrogen table lacks raises KeyError instead of creating the entry. */
  lemma HydrogenKpiRaises()
    ensures
      var filter := Table(["5"], map["5" := InitialEntry("5")]);
      var m := KpiMsg("5", "online", 1.0, 1.0, 1.0, None);
      && HydrogenKpiAsWritten(filter, Table([], map[]), m) == KeyError("5")
      && "5" in ApplyKpi(Table([], map[]), m).rows
  {
    assert WellFormed(Table([], map[]));
  }

  // ---------------------------------------------------------------------------
  // The all-requests-received test and the flush.
  // ---------------------------------------------------------------------------

  /**
   * The loop `all = all and (ts == PLANT_DATA[typ][id]["timestamp"])` over the first `k`
   * ids. Python's `and` stops evaluating once the flag is false, so a missing
   * timestamp raises KeyError only when every earlier entry matched.
   */
  function AllStamped(t: Table, ts: string, k: nat): (r: Result<bool>)
    requires WellFormed(t) && k <= |t.order|
    ensures r.KeyError? ==> r.key == "timestamp" && exists i :: 0 <= i < k && t.rows[t.order[i]].request.None?
  {
    if k == 0 then Ok(true)
    else match AllStamped(t, ts, k - 1)
      case KeyError(key) => KeyError(key)
      case Ok(all) =>
        if !all then Ok(false)
        else
          var e := t.rows[t.order[k - 1]];
          if e.request.None? then KeyError("timestamp")
          else Ok(e.request.value.stamp == Label(ts))
  }

  ghost predicate Stamped(t: Table, ts: string)
  {
    forall id :: id in t.rows ==> t.rows[id].request.Some? && t.rows[id].request.value.stamp == Label(ts)
  }

  /** The loop reports true exactly when every entry carries the request timestamp `ts`. */
  lemma {:induction false} AllStampedMeaning(t: Table, ts: string, k: nat)
    requires WellFormed(t) && k <= |t.order|
    ensures AllStamped(t, ts, k) == Ok(true) <==>
      forall i :: 0 <= i < k ==> t.rows[t.order[i]].request.Some? && t.rows[t.order[i]].request.value.stamp == Label(ts)
  {
    if k > 0 {
      AllStampedMeaning(t, ts, k - 1);
    }
  }

  /** Over the whole table: true iff every entry carries `ts`. */
  lemma AllStampedIffStamped(t: Table, ts: string)
    requires WellFormed(t)
    ensures AllStamped(t, ts, |t.order|) == Ok(true) <==> Stamped(t, ts)
  {
    AllStampedMeaning(t, ts, |t.order|);
    if AllStamped(t, ts, |t.order|) == Ok(true) {
      forall id | id in t.rows ensures t.rows[id].request.Some? && t.rows[id].request.value.stamp == Label(ts) {
        var i :| 0 <= i < |t.order| && t.order[i] == id;
      }
    }
  }

  /**
   * Building `result_list` from the first `k` ids: `[priority, typ, id, amount, reply_topic]`,
   * evaluated left to right, so a missing priority is reported before a missing amount.
   */
  function BuildClaims(t: Table, k: nat): (r: Result<seq<Claim>>)
    requires WellFormed(t) && k <= |t.order|
  {
    if k == 0 then Ok([])
    else match BuildClaims(t, k - 1)
      case KeyError(key) => KeyError(key)
      case Ok(prefix) =>
        var id := t.order[k - 1];
        var e := t.rows[id];
        if e.priority.None? then KeyError("priority")
        else if e.request.None? then KeyError("amount")
        else Ok(prefix + [Claim(e.priority.value, id, e.request.value.amount, e.request.value.replyTopic)])
  }

  /**
   * The build fails exactly when some entry lacks its priority or its requested
   * amount, and the key it raises names the missing field.
   */
  lemma {:induction false} BuildClaimsFails(t: Table, k: nat)
    requires WellFormed(t) && k <= |t.order|
    ensures BuildClaims(t, k).Ok? <==>
      forall i :: 0 <= i < k ==> t.rows[t.order[i]].priority.Some? && t.rows[t.order[i]].request.Some?
    ensures BuildClaims(t, k).KeyError? ==> BuildClaims(t, k).key == "priority" || BuildClaims(t, k).key == "amount"
  {
    if k > 0 {
      BuildClaimsFails(t, k - 1);
    }
  }

  /** Once a prefix fails, every longer prefix fails with the same key. */
  lemma {:induction false} BuildClaimsErrorSticks(t: Table, i: nat, k: nat)
    requires WellFormed(t) && i <= k <= |t.order|
    requires BuildClaims(t, i).KeyError?
    ensures BuildClaims(t, k) == BuildClaims(t, i)
    decreases k - i
  {
    if i < k {
      BuildClaimsErrorSticks(t, i, k - 1);
    }
  }

  /** A successful build has one row per id, in table order, copying that entry's fields. */
  lemma {:induction false} BuildClaimsShape(t: Table, k: nat)
    requires WellFormed(t) && k <= |t.order|
    requires BuildClaims(t, k).Ok?
    ensures |BuildClaims(t, k).value| == k
    ensures forall i :: 0 <= i < k ==>
      var c := BuildClaims(t, k).value[i];
      var e := t.rows[t.order[i]];
      && e.priority.Some? && e.request.Some?
      && c == Claim(e.priority.value, t.order[i], e.request.value.amount, e.request.value.replyTopic)
  {
    if k > 0 {
      BuildClaimsShape(t, k - 1);
    }
  }

  /** The ids of the rows that will be answered (non-empty reply topic). */
  ghost function Targets(claims: seq<Claim>): set<string>
  {
    set i | 0 <= i < |claims| && claims[i].replyTopic != "" :: claims[i].id
  }

  /** `PLANT_DATA[typ][id]["timestamp"] = 0` for every row with a non-empty reply topic. */
  function ClearStamps(t: Table, claims: seq<Claim>): Table
    requires forall i :: 0 <= i < |claims| ==> claims[i].id in t.rows && t.rows[claims[i].id].request.Some?
  {
    if claims == [] then t
    else
      var c := claims[|claims| - 1];
      var t' := ClearStamps(t, claims[..|claims| - 1]);
      if c.replyTopic == "" then t'
      else Table(t'.order, t'.rows[c.id := t.rows[c.id].(request := Some(t.rows[c.id].request.value.(stamp := Cleared)))])
  }

  function ClearedEntry(e: Entry): Entry
    requires e.request.Some?
  {
    e.(request := Some(e.request.value.(stamp := Cleared)))
  }

  /** Exactly the answered ids get their timestamp cleared; every other entry is untouched. */
  lemma {:induction false} ClearStampsEffect(t: Table, claims: seq<Claim>)
    requires forall i :: 0 <= i < |claims| ==> claims[i].id in t.rows && t.rows[claims[i].id].request.Some?
    ensures ClearStamps(t, claims).order == t.order
    ensures ClearStamps(t, claims).rows.Keys == t.rows.Keys
    ensures forall id :: id in t.rows ==>
      ClearStamps(t, claims).rows[id] == if id in Targets(claims) then ClearedEntry(t.rows[id]) else t.rows[id]
  {
    if claims != [] {
      var init := claims[..|claims| - 1];
      ClearStampsEffect(t, init);
      assert forall i :: 0 <= i < |init| ==> init[i] == claims[i];
      assert Targets(claims) == Targets(init) + (if claims[|claims| - 1].replyTopic != "" then {claims[|claims| - 1].id} else {});
    }
  }

  /** The number of rows with a non-empty reply topic. */
  function TopicCount(claims: seq<Claim>): (n: nat)
    ensures n <= |claims|
  {
    if claims == [] then 0
    else TopicCount(claims[..|claims| - 1]) + (if claims[|claims| - 1].replyTopic == "" then 0 else 1)
  }

  /** The published supply messages, one per row with a non-empty reply topic, in row order. */
  function Replies(claims: seq<Claim>, ts: string): (r: seq<Reply>)
    ensures |r| == TopicCount(claims)
    ensures forall k :: 0 <= k < |r| ==> r[k].timestamp == ts && r[k].topic != ""
  {
    if claims == [] then []
    else
      var c := claims[|claims| - 1];
      Replies(claims[..|claims| - 1], ts) + (if c.replyTopic == "" then [] else [Reply(c.replyTopic, ts, c.amount)])
  }

  /**
   * Row i with a reply topic gets its reply, carrying its topic, `ts` and its
   * amount, after the replies of the rows before it: reply number
   * `TopicCount(claims[..i])`.
   */
  lemma {:induction false} RepliesIndexed(claims: seq<Claim>, ts: string)
    ensures forall i :: 0 <= i < |claims| && claims[i].replyTopic != "" ==>
      TopicCount(claims[..i]) < |Replies(claims, ts)| &&
      Replies(claims, ts)[TopicCount(claims[..i])] == Reply(claims[i].replyTopic, ts, claims[i].amount)
  {
    if claims != [] {
      var init := claims[..|claims| - 1];
      var c := claims[|claims| - 1];
      var r := Replies(claims, ts);
      RepliesIndexed(init, ts);
      assert r[..|Replies(init, ts)|] == Replies(init, ts);
      forall i | 0 <= i < |claims| && claims[i].replyTopic != ""
        ensures TopicCount(claims[..i]) < |r| && r[TopicCount(claims[..i])] == Reply(claims[i].replyTopic, ts, claims[i].amount)
      {
        if i < |init| {
          assert init[i] == claims[i] && init[..i] == claims[..i];
        } else {
          assert claims[..i] == init;
        }
      }
    }
  }

  /** A row with a reply topic has one more such row before every later row. */
  lemma {:induction false} TopicCountGrows(claims: seq<Claim>, i: nat, j: nat)
    requires i < j <= |claims| && claims[i].replyTopic != ""
    ensures TopicCount(claims[..i]) < TopicCount(claims[..j])
  {
    var pre := claims[..j];
    assert pre[..|pre| - 1] == claims[..j - 1];
    if i < j - 1 {
      TopicCountGrows(claims, i, j - 1);
    } else {
      assert claims[..j - 1] == claims[..i];
    }
  }

  /** The row that reply number `k` answers: the row with a topic that has `k` such rows before it. */
  lemma {:induction false} RowOfReply(claims: seq<Claim>, k: nat) returns (i: nat)
    requires k < TopicCount(claims)
    ensures i < |claims| && claims[i].replyTopic != "" && TopicCount(claims[..i]) == k
  {
    var init := claims[..|claims| - 1];
    if k < TopicCount(init) {
      i := RowOfReply(init, k);
      assert init[..i] == claims[..i];
    } else {
      i := |claims| - 1;
      assert claims[..i] == init;
    }
  }

  /** Reply number `k` of `Replies(claims, ts)` is the reply to row `i`, a row with a reply topic. */
  ghost predicate AnswersRow(claims: seq<Claim>, ts: string, k: int, i: int)
  {
    && 0 <= i < |claims| && claims[i].replyTopic != "" && TopicCount(claims[..i]) == k
    && 0 <= k < |Replies(claims, ts)| && Replies(claims, ts)[k] == Reply(claims[i].replyTopic, ts, claims[i].amount)
  }

  /** Reply number `k` answers some row with a reply topic. */
  ghost predicate AnswersSomeRow(claims: seq<Claim>, ts: string, k: int)
  {
    exists i :: AnswersRow(claims, ts, k, i)
  }

  /**
   * Every reply is the reply of one row with a non-empty topic, and replies follow
   * the row order: an earlier row's reply comes first.
   */
  lemma RepliesFromRows(claims: seq<Claim>, ts: string)
    ensures forall k :: 0 <= k < |Replies(claims, ts)| ==> AnswersSomeRow(claims, ts, k)
    ensures forall i, j :: 0 <= i < j < |claims| && claims[i].replyTopic != "" ==>
      TopicCount(claims[..i]) < TopicCount(claims[..j])
  {
    forall i, j | 0 <= i < j < |claims| && claims[i].replyTopic != ""
      ensures TopicCount(claims[..i]) < TopicCount(claims[..j])
    {
      TopicCountGrows(claims, i, j);
    }
    RepliesIndexed(claims, ts);
    forall k | 0 <= k < |Replies(claims, ts)| ensures AnswersSomeRow(claims, ts, k) {
      var i := RowOfReply(claims, k);
      assert AnswersRow(claims, ts, k, i);
    }
  }

  // ---------------------------------------------------------------------------
  // What a flush leaves behind.
  // ---------------------------------------------------------------------------

  /** The serving order: by descending priority in adaptive mode, table order otherwise. */
  function Ordered(claims: seq<Claim>, byPriority: bool): seq<Claim>
  {
    if byPriority then SortByPriority(claims) else claims
  }

  /** First-fit changes only amounts, so it answers the same plants. */
  lemma TargetsFirstFit(claims: seq<Claim>, available: real)
    ensures Targets(FirstFit(claims, available).granted) == Targets(claims)
  {
    var g := FirstFit(claims, available).granted;
    AllOrNothing(claims, available);
    forall x | x in Targets(g) ensures x in Targets(claims) {
      var i :| 0 <= i < |g| && g[i].replyTopic != "" && g[i].id == x;
      assert claims[i].id == x && claims[i].replyTopic != "";
    }
    forall x | x in Targets(claims) ensures x in Targets(g) {
      var i :| 0 <= i < |claims| && claims[i].replyTopic != "" && claims[i].id == x;
      assert g[i].id == x && g[i].replyTopic != "";
    }
  }

  /** Reordering rows answers the same plants. */
  lemma TargetsPermutation(a: seq<Claim>, b: seq<Claim>)
    requires multiset(a) == multiset(b)
    ensures Targets(a) == Targets(b)
  {
    forall x | x in Targets(a) ensures x in Targets(b) {
      var i :| 0 <= i < |a| && a[i].replyTopic != "" && a[i].id == x;
      assert a[i] in multiset(b);
      var j :| 0 <= j < |b| && b[j] == a[i];
    }
    forall x | x in Targets(b) ensures x in Targets(a) {
      var j :| 0 <= j < |b| && b[j].replyTopic != "" && b[j].id == x;
      assert b[j] in multiset(a);
      var i :| 0 <= i < |a| && a[i] == b[j];
    }
  }

  /** A plant is answered iff its entry has a non-empty reply topic. */
  lemma TargetsOfBuild(t: Table)
    requires WellFormed(t) && BuildClaims(t, |t.order|).Ok?
    ensures forall id :: id in t.rows ==> t.rows[id].request.Some?
    ensures forall id :: id in t.rows ==>
      (id in Targets(BuildClaims(t, |t.order|).value) <==> t.rows[id].request.value.replyTopic != "")
  {
    var cs := BuildClaims(t, |t.order|).value;
    BuildClaimsShape(t, |t.order|);
    forall id | id in t.rows
      ensures t.rows[id].request.Some?
      ensures id in Targets(cs) <==> t.rows[id].request.value.replyTopic != ""
    {
      var i :| 0 <= i < |t.order| && t.order[i] == id;
      if id in Targets(cs) {
        var j :| 0 <= j < |cs| && cs[j].replyTopic != "" && cs[j].id == id;
        assert t.order[j] == id;
        assert i == j;
      }
      if t.rows[id].request.value.replyTopic != "" {
        assert cs[i].id == id && cs[i].replyTopic != "";
      }
    }
  }

  /**
   * `calculate_supply` on a table: build `result_list`, order it, and serve it
   * first-fit from `available`; a missing key raises instead.
   */
  function SupplyOf(t: Table, byPriority: bool, available: real): (r: Result<Split>)
    requires WellFormed(t)
  {
    var built := BuildClaims(t, |t.order|);
    if built.KeyError? then KeyError(built.key)
    else
      Ok(FirstFit(Ordered(built.value, byPriority), available))
  }

  /**
   * What `calculate_supply` adds to the type's requested sum: the amounts of all
   * ordered rows, refused ones included; 0 when the rows cannot be built.
   */
  function Requested(t: Table, byPriority: bool): real
    requires WellFormed(t)
  {
    var built := BuildClaims(t, |t.order|);
    if built.KeyError? then 0.0 else AmountSum(Ordered(built.value, byPriority))
  }

  /**
   * The requested total is the same in adaptive mode and in table order: it is the
   * total of all built rows, refused ones included.
   */
  lemma RequestedIgnoresOrder(t: Table)
    requires WellFormed(t)
    ensures Requested(t, true) == Requested(t, false)
    ensures BuildClaims(t, |t.order|).Ok? ==> Requested(t, false) == AmountSum(BuildClaims(t, |t.order|).value)
    ensures BuildClaims(t, |t.order|).KeyError? ==> Requested(t, true) == 0.0
  {
    if BuildClaims(t, |t.order|).Ok? {
      SortKeepsTotal(BuildClaims(t, |t.order|).value);
    }
  }

  /** The ordered rows name table entries that hold a request, and answer the same plants as the build. */
  lemma OrderedKnown(t: Table, byPriority: bool)
    requires WellFormed(t) && BuildClaims(t, |t.order|).Ok?
    ensures
      var cs := BuildClaims(t, |t.order|).value;
      var o := Ordered(cs, byPriority);
      && (forall i :: 0 <= i < |o| ==> o[i].id in t.rows && t.rows[o[i].id].request.Some?)
      && Targets(o) == Targets(cs)
  {
    var cs := BuildClaims(t, |t.order|).value;
    var o := Ordered(cs, byPriority);
    TargetsOfBuild(t);
    BuildClaimsShape(t, |t.order|);
    if byPriority {
      SortPermutes(cs);
      TargetsPermutation(o, cs);
    }
    forall i | 0 <= i < |o| ensures o[i].id in t.rows {
      assert o[i] in multiset(o);
      var j :| 0 <= j < |cs| && cs[j] == o[i];
    }
  }

  /** The served rows name table entries that hold a request, and answer the same plants as the build. */
  lemma GrantedKnown(t: Table, byPriority: bool, available: real)
    requires WellFormed(t) && SupplyOf(t, byPriority, available).Ok?
    ensures
      var cs := BuildClaims(t, |t.order|).value;
      var g := SupplyOf(t, byPriority, available).value.granted;
      && (forall i :: 0 <= i < |g| ==> g[i].id in t.rows && t.rows[g[i].id].request.Some?)
      && Targets(g) == Targets(cs)
  {
    var cs := BuildClaims(t, |t.order|).value;
    var o := Ordered(cs, byPriority);
    var g := FirstFit(o, available).granted;
    assert SupplyOf(t, byPriority, available).value.granted == g;
    OrderedKnown(t, byPriority);
    AllOrNothing(o, available);
    TargetsFirstFit(o, available);
    assert forall i :: 0 <= i < |g| ==> g[i].id == o[i].id;
  }

  /** What the second half of `on_message_request` produces for one plant type. */
  datatype Flushed = Flushed(outcome: Result<bool>, replies: seq<Reply>, table: Table, remaining: real)

  /**
   * The flush of one type with timestamp `ts`: test that every plant asked for `ts`;
   * if so, build `result_list`, order it, serve it first-fit from `available`, reply
   * to every row with a reply topic and clear those plants' timestamps. `outcome`
   * is `Ok(false)` while requests are missing, and `KeyError` where Python raises.
   */
  function FlushOf(t: Table, ts: string, byPriority: bool, available: real): (r: Flushed)
    requires WellFormed(t)
  {
    var received := AllStamped(t, ts, |t.order|);
    if received != Ok(true) then Flushed(received, [], t, available)
    else
      var supply := SupplyOf(t, byPriority, available);
      if supply.KeyError? then Flushed(KeyError(supply.key), [], t, available)
      else
        GrantedKnown(t, byPriority, available);
        Flushed(Ok(true), Replies(supply.value.granted, ts), ClearStamps(t, supply.value.granted), supply.value.remaining)
  }

  /** Clearing timestamps keeps the table well formed and its amounts as they were. */
  lemma ClearStampsKeeps(t: Table, claims: seq<Claim>)
    requires WellFormed(t)
    requires forall i :: 0 <= i < |claims| ==> claims[i].id in t.rows && t.rows[claims[i].id].request.Some?
    ensures WellFormed(ClearStamps(t, claims))
    ensures AmountsNonNegative(t) ==> AmountsNonNegative(ClearStamps(t, claims))
  {
    ClearStampsEffect(t, claims);
  }

  /**
   * A flush happens exactly when every plant of the type asked for `ts` and every
   * entry is complete. It then leaves the ids in place, clears the timestamp of
   * exactly the plants with a reply topic, and changes nothing else. Without a
   * flush the table is unchanged and nothing is published.
   */
  lemma FlushClearsAnswered(t: Table, ts: string, byPriority: bool, available: real)
    requires WellFormed(t)
    ensures var f := FlushOf(t, ts, byPriority, available);
      && (f.outcome == Ok(true) <==> Stamped(t, ts) && BuildClaims(t, |t.order|).Ok?)
      && (f.outcome != Ok(true) ==> f.replies == [] && f.table == t && f.remaining == available)
      && (f.outcome == Ok(true) ==>
            && WellFormed(f.table)
            && f.table.order == t.order
            && f.table.rows.Keys == t.rows.Keys
            && forall id :: id in t.rows ==>
                 t.rows[id].request.Some? &&
                 f.table.rows[id] == if t.rows[id].request.value.replyTopic != "" then ClearedEntry(t.rows[id]) else t.rows[id])
  {
    AllStampedIffStamped(t, ts);
    var f := FlushOf(t, ts, byPriority, available);
    if f.outcome == Ok(true) {
      var g := SupplyOf(t, byPriority, available).value.granted;
      GrantedKnown(t, byPriority, available);
      TargetsOfBuild(t);
      ClearStampsEffect(t, g);
      ClearStampsKeeps(t, g);
    }
  }

  /** Total amount over a list of replies. */
  function ReplyTotal(rs: seq<Reply>): real
  {
    if rs == [] then 0.0 else ReplyTotal(rs[..|rs| - 1]) + rs[|rs| - 1].amount
  }

  /** Rows with a reply topic are published, the others dropped, so with non-negative amounts the replies total no more than the rows. */
  lemma {:induction false} ReplyTotalAtMost(claims: seq<Claim>, ts: string)
    requires forall i :: 0 <= i < |claims| ==> claims[i].amount >= 0.0
    ensures ReplyTotal(Replies(claims, ts)) <= AmountSum(claims)
  {
    if claims != [] {
      var init := claims[..|claims| - 1];
      var c := claims[|claims| - 1];
      ReplyTotalAtMost(init, ts);
      var r := Replies(claims, ts);
      if c.replyTopic != "" {
        assert r == Replies(init, ts) + [Reply(c.replyTopic, ts, c.amount)];
        assert r[..|r| - 1] == Replies(init, ts);
        assert ReplyTotal(r) == ReplyTotal(Replies(init, ts)) + c.amount;
      } else {
        assert r == Replies(init, ts);
      }
      assert AmountSum(claims) == AmountSum(init) + c.amount;
    }
  }

  /**
   * A reply grants the plant whose entry carries its topic either that entry's full
   * requested amount or nothing.
   */
  ghost predicate GrantsAllOrNothing(t: Table, rep: Reply)
  {
    exists id :: && id in t.rows && t.rows[id].request.Some?
                 && t.rows[id].request.value.replyTopic == rep.topic
                 && (rep.amount == t.rows[id].request.value.amount || rep.amount == 0.0)
  }

  /** Each served row is some entry's row, granted in full or refused. */
  lemma ServedRowAllOrNothing(t: Table, byPriority: bool, available: real, i: nat)
    requires WellFormed(t) && SupplyOf(t, byPriority, available).Ok?
    requires i < |SupplyOf(t, byPriority, available).value.granted|
    ensures var g := SupplyOf(t, byPriority, available).value.granted[i];
      GrantsAllOrNothing(t, Reply(g.replyTopic, "", g.amount))
  {
    var cs := BuildClaims(t, |t.order|).value;
    var o := Ordered(cs, byPriority);
    var g := FirstFit(o, available).granted;
    AllOrNothing(o, available);
    BuildClaimsShape(t, |t.order|);
    var j: int := i;
    if byPriority {
      SortPermutes(cs);
      assert o[i] in multiset(cs);
      j :| 0 <= j < |cs| && cs[j] == o[i];
    }
    var id := t.order[j];
    assert t.rows[id].request.value.replyTopic == g[i].replyTopic;
  }

  /**
   * What a flush publishes: every reply grants its plant the full stored request
   * or 0, and with non-negative requests and pool the replies total at most the
   * power available.
   */
  lemma FlushRepliesAllOrNothing(t: Table, ts: string, byPriority: bool, available: real)
    requires WellFormed(t)
    ensures var f := FlushOf(t, ts, byPriority, available);
      f.outcome == Ok(true) ==> forall k :: 0 <= k < |f.replies| ==> GrantsAllOrNothing(t, f.replies[k])
    ensures var f := FlushOf(t, ts, byPriority, available);
      f.outcome == Ok(true) && AmountsNonNegative(t) && available >= 0.0 ==> ReplyTotal(f.replies) <= available
  {
    var f := FlushOf(t, ts, byPriority, available);
    if f.outcome == Ok(true) {
      var supply := SupplyOf(t, byPriority, available);
      var g := supply.value.granted;
      assert f.replies == Replies(g, ts);
      RepliesFromRows(g, ts);
      forall k | 0 <= k < |f.replies| ensures GrantsAllOrNothing(t, f.replies[k]) {
        assert AnswersSomeRow(g, ts, k);
        var i :| AnswersRow(g, ts, k, i);
        ServedRowAllOrNothing(t, byPriority, available, i);
      }
      if AmountsNonNegative(t) && available >= 0.0 {
        var o := Ordered(BuildClaims(t, |t.order|).value, byPriority);
        OrderedNonNegative(t, byPriority);
        AllOrNothing(o, available);
        Conservation(o, available);
        ReplyTotalAtMost(g, ts);
      }
    }
  }

  /**
   * After a flush that answered some plant, the table fails the all-received test
   * for every timestamp, so no second flush happens until fresh requests arrive.
   */
  lemma NoFlushWithoutFreshRequests(t: Table, ts: string, byPriority: bool, available: real, next: string)
    requires WellFormed(t)
    requires FlushOf(t, ts, byPriority, available).outcome == Ok(true)
    requires exists id :: id in t.rows && t.rows[id].request.Some? && t.rows[id].request.value.replyTopic != ""
    ensures var f := FlushOf(t, ts, byPriority, available);
      WellFormed(f.table) && AllStamped(f.table, next, |f.table.order|) != Ok(true)
  {
    FlushClearsAnswered(t, ts, byPriority, available);
    var f := FlushOf(t, ts, byPriority, available);
    var id :| id in t.rows && t.rows[id].request.Some? && t.rows[id].request.value.replyTopic != "";
    assert f.table.rows[id].request.value.stamp == Cleared;
    AllStampedIffStamped(f.table, next);
  }

  // ---------------------------------------------------------------------------
  // Non-negative requests.
  // ---------------------------------------------------------------------------

  ghost predicate AmountsNonNegative(t: Table)
  {
    forall id :: id in t.rows && t.rows[id].request.Some? ==> t.rows[id].request.value.amount >= 0.0
  }

  /** The requested total of a build is non-negative when every stored amount is. */
  lemma BuildClaimsNonNegative(t: Table)
    requires WellFormed(t) && AmountsNonNegative(t) && BuildClaims(t, |t.order|).Ok?
    ensures forall i :: 0 <= i < |BuildClaims(t, |t.order|).value| ==> BuildClaims(t, |t.order|).value[i].amount >= 0.0
  {
    BuildClaimsShape(t, |t.order|);
  }

  /** The rows `calculate_supply` serves, sorted or not, carry non-negative amounts when the table does. */
  lemma OrderedNonNegative(t: Table, byPriority: bool)
    requires WellFormed(t) && AmountsNonNegative(t) && BuildClaims(t, |t.order|).Ok?
    ensures var o := Ordered(BuildClaims(t, |t.order|).value, byPriority);
      forall i :: 0 <= i < |o| ==> o[i].amount >= 0.0
  {
    var built := BuildClaims(t, |t.order|).value;
    BuildClaimsNonNegative(t);
    if byPriority {
      SortPermutes(built);
      AmountsNonNegativePermuted(built, SortByPriority(built));
    }
  }
}
