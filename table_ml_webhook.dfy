/** `databricks_ml_webhook`: the model-registry webhooks of a workspace,
    optionally narrowed to one model and to some events. */
module MlWebhook {
  import opened Wrappers
  import opened Framework
  import opened Paging
  import opened Cursors
  import opened Tables

  /** `Events` is an empty list when no event was given (Go's nil slice). */
  datatype ListWebhooksRequest = ListWebhooksRequest(modelName: string, events: seq<string>)

  /** The quals on the `events` column, in the order the engine gives them. */
  function EventQuals(quals: map<string, KeyColumnQuals>): seq<Qual> {
    if "events" in quals && quals["events"].quals.Some? then quals["events"].quals.value else []
  }

  /** The event names of those quals. */
  function EventNames(qs: seq<Qual>): seq<string>
    decreases |qs|
  {
    if |qs| == 0 then [] else EventNames(qs[..|qs| - 1]) + [GetStringValue(qs[|qs| - 1].value)]
  }

  /** The loop that gathers one event per qual on `events`, whatever its operator. */
  method WebhookEvents(quals: map<string, KeyColumnQuals>) returns (events: seq<string>)
    ensures events == EventNames(EventQuals(quals))
    ensures |events| == |EventQuals(quals)|
    ensures forall i :: 0 <= i < |events| ==> events[i] == GetStringValue(EventQuals(quals)[i].value)
    ensures "events" !in quals ==> events == []
  {
    events := [];
    if "events" in quals {
      var qs := if quals["events"].quals.Some? then quals["events"].quals.value else [];
      for i := 0 to |qs|
        invariant events == EventNames(qs[..i])
        invariant |events| == i
        invariant forall k :: 0 <= k < i ==> events[k] == GetStringValue(qs[k].value)
      {
        assert qs[..i + 1][..i] == qs[..i];
        events := events + [GetStringValue(qs[i].value)];
      }
      assert qs[..|qs|] == qs;
    }
  }

  /** The list request: the model name from its qual, the events from theirs. */
  method ListRequest(d: QueryData) returns (r: ListWebhooksRequest)
    ensures r.modelName == EqualsQualString(d, "model_name")
    ensures r.events == EventNames(EventQuals(d.quals))
  {
    r := ListWebhooksRequest("", []);
    if EqualsQualString(d, "model_name") != "" {
      r := r.(modelName := EqualsQualString(d, "model_name"));
    }
    var events := WebhookEvents(d.quals);
    r := r.(events := events);
  }

  /** `listMLWebhooks`; the client comes from `getWorkspaceClient`, whose
      outcome is `conn`. */
  method ListMLWebhooks<I>(d: QueryData, conn: Connection,
                           api: Request<ListWebhooksRequest, string> -> Result<TokenPage<I>, Error>,
                           sink: RowSink<I>, fuel: nat) returns (o: Outcome)
    modifies sink
    ensures conn.ConnectFailed? ==> o == Failed(conn.err) && sink.rows == old(sink.rows)
    ensures conn.Connected? ==>
      Scanned(old(sink.rows), sink.rows, o,
              ScanTrace(api, TokenItems, NextByToken,
                        ListWebhooksRequest(EqualsQualString(d, "model_name"), EventNames(EventQuals(d.quals))),
                        "", old(sink.Budget()), 0, fuel))
  {
    if conn.ConnectFailed? {
      return Failed(conn.err);
    }
    var request := ListRequest(d);
    o := Scan(api, TokenItems, NextByToken, request, "", sink, fuel);
  }
}
