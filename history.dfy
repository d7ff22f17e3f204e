/** Sequences of requests served one after another, and what holds of the table over
    any such sequence. */
module KycHistory {
  import opened KycRecords

  /** One request to the server, with the time its handler would read from the clock. */
  datatype Request =
    | RegisterRequest(hash: Field, customerData: Option<CustomerData>)
    | VerifyRequest(hash: Field, bankName: Field, at: Timestamp)
    | LookupRequest(key: string)

  /** The table after serving one request. */
  function Apply(t: Table, req: Request): (t': Table)
    ensures t.Keys <= t'.Keys
    ensures forall h :: h in t ==> SameIdentity(t[h], t'[h])
  {
    match req
    case RegisterRequest(hash, data) => Register(t, hash, data).table
    case VerifyRequest(hash, bank, at) => Verify(t, hash, bank, at).table
    case LookupRequest(_) => t
  }

  /** The table after serving the requests in order. */
  function Run(t: Table, reqs: seq<Request>): Table
    decreases |reqs|
  {
    if reqs == [] then t else Run(Apply(t, reqs[0]), reqs[1..])
  }

  /** Rows are never deleted: every key present before is present after. */
  lemma {:induction false} RunKeepsKeys(t: Table, reqs: seq<Request>)
    ensures t.Keys <= Run(t, reqs).Keys
    decreases |reqs|
  {
    if reqs != [] {
      RunKeepsKeys(Apply(t, reqs[0]), reqs[1..]);
    }
  }

  /** The identity columns of a row never change once it exists. */
  lemma {:induction false} RunKeepsIdentity(t: Table, reqs: seq<Request>, h: string)
    requires h in t
    ensures h in Run(t, reqs) && SameIdentity(t[h], Run(t, reqs)[h])
    decreases |reqs|
  {
    if reqs != [] {
      RunKeepsIdentity(Apply(t, reqs[0]), reqs[1..], h);
    }
  }

  /** Once verified, a row stays verified: there is no un-verify transition. */
  lemma {:induction false} RunKeepsVerified(t: Table, reqs: seq<Request>, h: string)
    requires h in t && t[h].bankVerified
    ensures h in Run(t, reqs) && Run(t, reqs)[h].bankVerified
    decreases |reqs|
  {
    if reqs != [] {
      var t1 := Apply(t, reqs[0]);
      assert h in t1 && t1[h].bankVerified;
      RunKeepsVerified(t1, reqs[1..], h);
    }
  }

  /** Every table reached from a valid one is valid. */
  lemma {:induction false} RunPreservesValid(t: Table, reqs: seq<Request>)
    requires ValidTable(t)
    ensures ValidTable(Run(t, reqs))
    decreases |reqs|
  {
    if reqs != [] {
      match reqs[0] {
        case RegisterRequest(hash, data) => RegisterPreservesValid(t, hash, data);
        case VerifyRequest(hash, bank, at) => VerifyPreservesValid(t, hash, bank, at);
        case LookupRequest(_) =>
      }
      RunPreservesValid(Apply(t, reqs[0]), reqs[1..]);
    }
  }

  /** Lookups alone never change the table. */
  lemma {:induction false} LookupsChangeNothing(t: Table, reqs: seq<Request>)
    requires forall i :: 0 <= i < |reqs| ==> reqs[i].LookupRequest?
    ensures Run(t, reqs) == t
    decreases |reqs|
  {
    if reqs != [] {
      LookupsChangeNothing(t, reqs[1..]);
    }
  }

  /** First writer wins: after a hash is registered with fields `a`, any later
      registration of that hash, whatever requests came between, is answered from the
      cache with fields `a`, and a lookup also returns fields `a`. */
  lemma FirstWriterWins(t: Table, hash: string, a: CustomerData, between: seq<Request>, b: CustomerData)
    requires hash != "" && hash !in t
    ensures var t1 := Run(Register(t, Some(hash), Some(a)).table, between);
            var s2 := Register(t1, Some(hash), Some(b));
            s2.response.Ok? && s2.response.body.fromCache
            && HoldsData(s2.response.body.record, a)
            && s2.table == t1
            && Lookup(s2.table, hash).Ok? && HoldsData(Lookup(s2.table, hash).body, a)
  {
    var t0 := Register(t, Some(hash), Some(a)).table;
    RunKeepsIdentity(t0, between, hash);
  }

  /** A verification of an unknown hash creates nothing, even after other requests. */
  lemma UnknownVerifyCreatesNothing(t: Table, reqs: seq<Request>, hash: string, bank: string, at: Timestamp)
    requires hash != "" && bank != "" && hash !in Run(t, reqs)
    ensures var s := Verify(Run(t, reqs), Some(hash), Some(bank), at);
            s.response.NotFound? && s.table == Run(t, reqs) && hash !in t
  {
    RunKeepsKeys(t, reqs);
  }
}
