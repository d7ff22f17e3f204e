/** The three route handlers of the server over the `kyc_records` table, served one
    at a time. Each handler works as the source does: it queries the table, branches on
    what it found, writes, and reads the row back. */
module KycServer {
  import opened KycRecords

  class KycServer {
    /** The rows of `kyc_records`, keyed by `document_hash`. */
    var table: Table

    ghost predicate Valid()
      reads this
    {
      ValidTable(table)
    }

    /** The server serves whatever rows `kyc_records` already holds when it starts;
        they are assumed to be stored under their own hash with lockstep verification
        columns. An empty table is one such start. */
    constructor (existing: Table)
      requires ValidTable(existing)
      ensures Valid() && table == existing
    {
      table := existing;
    }

    /** `SELECT * FROM kyc_records WHERE document_hash = ?`: at most one row, since
        the hash is the key. */
    function Select(hash: string): (rows: seq<Record>)
      reads this
      ensures |rows| <= 1
      ensures |rows| == 1 <==> hash in table
      ensures |rows| == 1 ==> rows[0] == table[hash]
    {
      if hash in table then [table[hash]] else []
    }

    /** `POST /api/kyc`: register-or-fetch. */
    method Register(hash: Field, customerData: Option<CustomerData>) returns (res: Response<Registration>)
      requires Valid()
      modifies this
      ensures Valid()
      ensures Step(res, table) == KycRecords.Register(old(table), hash, customerData)
    {
      if !RegisterInputOk(hash, customerData) {
        return BadRequest(RegisterMissing);
      }
      var key := hash.value;
      var rows := Select(key);
      if |rows| > 0 {
        return Ok(Registration(true, rows[0]));
      }
      var data := customerData.value;
      table := table[key := Inserted(key, data)];
      var newRows := Select(key);
      res := Ok(Registration(false, newRows[0]));
    }

    /** `POST /api/kyc/verify` with `verifiedAt` the current time. */
    method Verify(hash: Field, bankName: Field, verifiedAt: Timestamp) returns (res: Response<Verification>)
      requires Valid()
      modifies this
      ensures Valid()
      ensures Step(res, table) == KycRecords.Verify(old(table), hash, bankName, verifiedAt)
    {
      if !VerifyInputOk(hash, bankName) {
        return BadRequest(VerifyMissing);
      }
      var key := hash.value;
      // UPDATE ... WHERE document_hash = ?, counting the rows it matched
      var affectedRows := 0;
      if key in table {
        table := table[key := Stamped(table[key], bankName.value, verifiedAt)];
        affectedRows := 1;
      }
      if affectedRows == 0 {
        return NotFound(VerifyUnknown);
      }
      var rows := Select(key);
      res := Ok(Verification(true, rows[0]));
    }

    /** `GET /api/kyc/:hash`: reads the table and changes nothing. */
    method Get(hash: string) returns (res: Response<Record>)
      requires Valid()
      ensures res == Lookup(table, hash)
      ensures res.Ok? ==> res.body.documentHash == hash && Consistent(res.body)
    {
      var rows := Select(hash);
      if |rows| == 0 {
        return NotFound(LookupUnknown);
      }
      res := Ok(rows[0]);
    }
  }
}
