/** The KYC record cache of the server: one row of `kyc_records` per document hash,
    and the effect of each of the three request handlers on that table, stated as
    functions of the table before the request. */
module KycRecords {

  datatype Option<T> = None | Some(value: T)

  /** The moment `new Date()` returned; its value is an input of the model. */
  datatype Timestamp = Timestamp(millis: int)

  /** A request-body field such as `hash` or `bankName`: absent (or `null`), or a string. */
  type Field = Option<string>

  /** JavaScript truthiness of a body field: present and not the empty string. */
  predicate Truthy(f: Field)
  {
    f.Some? && f.value != ""
  }

  /** The `customerData` object of a registration. A sub-field it lacks is `undefined`
      after destructuring and is stored as SQL NULL, modelled as `None`. */
  datatype CustomerData = CustomerData(name: Field, dob: Field, address: Field, phone: Field)

  /** One row of `kyc_records`. */
  datatype Record = Record(
    documentHash: string,
    name: Field,
    dob: Field,
    address: Field,
    phone: Field,
    bankVerified: bool,
    verifiedBy: Field,
    verifiedAt: Option<Timestamp>)

  /** The table, keyed by `document_hash`. */
  type Table = map<string, Record>

  /** The JSON answer of a handler: 400 and 404 carry the `error` message, 200 a body. */
  datatype Response<T> = BadRequest(error: string) | NotFound(error: string) | Ok(body: T)
  {
    function Status(): (code: int)
      ensures code == 200 <==> Ok?
      ensures code == 400 <==> BadRequest?
      ensures code == 404 <==> NotFound?
    {
      match this
      case BadRequest(_) => 400
      case NotFound(_) => 404
      case Ok(_) => 200
    }
  }

  /** Body of a successful `POST /api/kyc`. */
  datatype Registration = Registration(fromCache: bool, record: Record)

  /** Body of a successful `POST /api/kyc/verify`. */
  datatype Verification = Verification(success: bool, record: Record)

  /** What a handler answers together with the table it leaves behind. */
  datatype Step<T> = Step(response: Response<T>, table: Table)

  const RegisterMissing := "hash & customerData required"
  const VerifyMissing := "hash & bankName required"
  const VerifyUnknown := "No record found for that hash"
  const LookupUnknown := "No record found"

  /** Every row is stored under its own document hash. */
  ghost predicate WellKeyed(t: Table)
  {
    forall h :: h in t ==> t[h].documentHash == h
  }

  /** The three verification columns move in lockstep: a row is verified exactly when
      it names a verifier and carries a verification time. */
  predicate Consistent(r: Record)
  {
    (r.bankVerified <==> r.verifiedBy.Some?) && (r.bankVerified <==> r.verifiedAt.Some?)
  }

  ghost predicate ValidTable(t: Table)
  {
    WellKeyed(t) && forall h :: h in t ==> Consistent(t[h])
  }

  /** The identity columns (and the key) of two rows agree. */
  predicate SameIdentity(a: Record, b: Record)
  {
    a.documentHash == b.documentHash && a.name == b.name && a.dob == b.dob
    && a.address == b.address && a.phone == b.phone
  }

  /** The identity columns of a row are those a registration supplied. */
  predicate HoldsData(r: Record, data: CustomerData)
  {
    r.name == data.name && r.dob == data.dob && r.address == data.address && r.phone == data.phone
  }

  /** The row the INSERT creates. Only the key and the identity columns are written;
      the verification columns are assumed to default to "not verified, no verifier,
      no time". */
  function Inserted(hash: string, data: CustomerData): (r: Record)
    ensures r.documentHash == hash && HoldsData(r, data)
    ensures !r.bankVerified && Consistent(r)
  {
    Record(hash, data.name, data.dob, data.address, data.phone, false, None, None)
  }

  /** The row after the UPDATE of a verification. */
  function Stamped(r: Record, bank: string, at: Timestamp): (s: Record)
    ensures SameIdentity(r, s)
    ensures s.bankVerified && s.verifiedBy == Some(bank) && s.verifiedAt == Some(at)
    ensures Consistent(s)
  {
    r.(bankVerified := true, verifiedBy := Some(bank), verifiedAt := Some(at))
  }

  /** The input check of `POST /api/kyc`. */
  predicate RegisterInputOk(hash: Field, customerData: Option<CustomerData>)
  {
    Truthy(hash) && customerData.Some?
  }

  /** The input check of `POST /api/kyc/verify`. */
  predicate VerifyInputOk(hash: Field, bankName: Field)
  {
    Truthy(hash) && Truthy(bankName)
  }

  /** Register-or-fetch: answer and new table of `POST /api/kyc`. */
  function Register(t: Table, hash: Field, customerData: Option<CustomerData>): (s: Step<Registration>)
    ensures s.response.BadRequest? <==> !RegisterInputOk(hash, customerData)
    ensures s.response.BadRequest? ==> s.response.error == RegisterMissing && s.table == t
    ensures !s.response.NotFound?
    // an existing row is never overwritten, and no row is removed
    ensures forall h :: h in t ==> h in s.table && s.table[h] == t[h]
    ensures s.response.Ok? ==>
      var key := hash.value;
      var reg := s.response.body;
      key in s.table && reg.record == s.table[key]
      && (reg.fromCache <==> key in t)
      && (reg.fromCache ==> s.table == t)
      && (!reg.fromCache ==>
            s.table.Keys == t.Keys + {key} && reg.record.documentHash == key
            && HoldsData(reg.record, customerData.value) && !reg.record.bankVerified)
  {
    if !RegisterInputOk(hash, customerData) then
      Step(BadRequest(RegisterMissing), t)
    else
      var key := hash.value;
      if key in t then
        Step(Ok(Registration(true, t[key])), t)
      else
        var r := Inserted(key, customerData.value);
        Step(Ok(Registration(false, r)), t[key := r])
  }

  /** Verify: answer and new table of `POST /api/kyc/verify` with `at` as the time. */
  function Verify(t: Table, hash: Field, bankName: Field, at: Timestamp): (s: Step<Verification>)
    ensures s.response.BadRequest? <==> !VerifyInputOk(hash, bankName)
    ensures s.response.BadRequest? ==> s.response.error == VerifyMissing
    ensures s.response.NotFound? <==> VerifyInputOk(hash, bankName) && hash.value !in t
    ensures s.response.NotFound? ==> s.response.error == VerifyUnknown
    // the request never creates or removes a row
    ensures s.table.Keys == t.Keys
    ensures !s.response.Ok? ==> s.table == t
    // every row other than the one named keeps all its columns
    ensures forall h :: h in t && !(s.response.Ok? && h == hash.value) ==> s.table[h] == t[h]
    ensures s.response.Ok? ==>
      var key := hash.value;
      var rec := s.response.body.record;
      key in t && s.response.body.success && rec == s.table[key]
      && SameIdentity(t[key], rec)
      && rec.bankVerified && rec.verifiedBy == bankName && rec.verifiedAt == Some(at)
  {
    if !VerifyInputOk(hash, bankName) then
      Step(BadRequest(VerifyMissing), t)
    else
      var key := hash.value;
      if key !in t then
        Step(NotFound(VerifyUnknown), t)
      else
        var r := Stamped(t[key], bankName.value, at);
        Step(Ok(Verification(true, r)), t[key := r])
  }

  /** Lookup: the answer of `GET /api/kyc/:hash`; the table is only read. */
  function Lookup(t: Table, hash: string): (r: Response<Record>)
    ensures r.Ok? <==> hash in t
    ensures r.Ok? ==> r.body == t[hash]
    ensures r.NotFound? ==> r.error == LookupUnknown
    ensures !r.BadRequest?
  {
    if hash in t then Ok(t[hash]) else NotFound(LookupUnknown)
  }

  /** The HTTP status of `POST /api/kyc`: 400 exactly when `hash` or `customerData`
      is missing, and 200 otherwise, whether the row was found or created. */
  lemma RegisterStatus(t: Table, hash: Field, customerData: Option<CustomerData>)
    ensures Register(t, hash, customerData).response.Status() == 400 <==> !RegisterInputOk(hash, customerData)
    ensures Register(t, hash, customerData).response.Status() == 200 <==> RegisterInputOk(hash, customerData)
  {
  }

  /** The HTTP status of `POST /api/kyc/verify`: 400 exactly when `hash` or
      `bankName` is missing, 404 exactly when the input is accepted and the hash is
      absent from the table, and 200 exactly when the input is accepted and the hash
      is present. */
  lemma VerifyStatus(t: Table, hash: Field, bankName: Field, at: Timestamp)
    ensures Verify(t, hash, bankName, at).response.Status() == 400 <==> !VerifyInputOk(hash, bankName)
    ensures Verify(t, hash, bankName, at).response.Status() == 404 <==> VerifyInputOk(hash, bankName) && hash.value !in t
    ensures Verify(t, hash, bankName, at).response.Status() == 200 <==> VerifyInputOk(hash, bankName) && hash.value in t
  {
  }

  /** The HTTP status of `GET /api/kyc/:hash`: 404 exactly when the hash is absent,
      and 200 exactly when it is present. */
  lemma LookupStatus(t: Table, hash: string)
    ensures Lookup(t, hash).Status() == 404 <==> hash !in t
    ensures Lookup(t, hash).Status() == 200 <==> hash in t
  {
  }

  /** Register keeps the table well-keyed and every row consistent. */
  lemma RegisterPreservesValid(t: Table, hash: Field, customerData: Option<CustomerData>)
    requires ValidTable(t)
    ensures ValidTable(Register(t, hash, customerData).table)
  {
  }

  /** Verify keeps the table well-keyed and every row consistent. */
  lemma VerifyPreservesValid(t: Table, hash: Field, bankName: Field, at: Timestamp)
    requires ValidTable(t)
    ensures ValidTable(Verify(t, hash, bankName, at).table)
  {
  }

  /** Registering the same hash twice in a row: created first, found in the cache
      second, and both answers carry the first caller's identity fields. */
  lemma RegisterTwice(t: Table, hash: string, a: CustomerData, b: CustomerData)
    requires hash != "" && hash !in t
    ensures var s1 := Register(t, Some(hash), Some(a));
            var s2 := Register(s1.table, Some(hash), Some(b));
            s1.response.Ok? && s2.response.Ok?
            && !s1.response.body.fromCache && s2.response.body.fromCache
            && s2.response.body.record == s1.response.body.record
            && HoldsData(s2.response.body.record, a)
            && s2.table == s1.table
  {
  }

  /** A second verification replaces the first verifier: the row names only the last bank. */
  lemma VerifyOverwrites(t: Table, hash: string, x: string, y: string, t1: Timestamp, t2: Timestamp)
    requires hash != "" && x != "" && y != "" && hash in t
    ensures var s1 := Verify(t, Some(hash), Some(x), t1);
            var s2 := Verify(s1.table, Some(hash), Some(y), t2);
            s2.response.Ok? && s2.table[hash].verifiedBy == Some(y) && s2.table[hash].verifiedAt == Some(t2)
            && SameIdentity(s2.table[hash], t[hash])
  {
  }

  /** Verifying twice with the same bank leaves the same row as verifying once at the
      later time: re-verification only refreshes `verified_at`. */
  lemma VerifyAgain(t: Table, hash: string, bank: string, t1: Timestamp, t2: Timestamp)
    requires hash != "" && bank != ""
    ensures var s1 := Verify(t, Some(hash), Some(bank), t1);
            Verify(s1.table, Some(hash), Some(bank), t2).table == Verify(t, Some(hash), Some(bank), t2).table
  {
  }
}
