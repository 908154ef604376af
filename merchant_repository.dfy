/** The lookups of `MerchantRepository` over the merchant rows. */
module MerchantRepository {
  import opened Wrappers
  import opened Entities
  import Seqs

  /** `findById` (inherited). */
  function FindById(rows: seq<Merchant>, id: Uuid): (r: Option<Merchant>)
    ensures r.Some? <==> exists i :: 0 <= i < |rows| && rows[i].id == id
    ensures r.Some? ==> r.value in rows && r.value.id == id
  {
    match Seqs.FirstIndex(rows, (m: Merchant) => m.id == id)
    case None => None
    case Some(i) => Some(rows[i])
  }

  function ApiKey(m: Merchant): string { m.apiKey }

  /** The `apiKey` column is unique. */
  ghost predicate UniqueApiKeys(rows: seq<Merchant>) {
    Seqs.UniqueKeys(rows, ApiKey)
  }

  /** The selection predicate of `findByApiKey`. */
  function ApiKeyIs(apiKey: string): Merchant -> bool {
    (m: Merchant) => m.apiKey == apiKey
  }

  /** The selection predicate of `findActiveByApiKey`. */
  function ActiveApiKeyIs(apiKey: string): Merchant -> bool {
    (m: Merchant) => m.apiKey == apiKey && m.status == MerchantStatus.ACTIVE
  }

  /** `findByApiKey`. */
  function FindByApiKey(rows: seq<Merchant>, apiKey: string): (r: Result<Option<Merchant>, Thrown>)
    ensures r == Ok(None) <==> forall i :: 0 <= i < |rows| ==> rows[i].apiKey != apiKey
    ensures r.Ok? && r.value.Some? ==> r.value.value in rows && r.value.value.apiKey == apiKey
  {
    var matches := Seqs.Filter(rows, ApiKeyIs(apiKey));
    assert (forall i :: 0 <= i < |rows| ==> rows[i].apiKey != apiKey) <==> matches == [] by {
      if matches != [] { assert matches[0] in rows; }
      if i :| 0 <= i < |rows| && rows[i].apiKey == apiKey { assert rows[i] in matches; }
    }
    SingleResult(matches)
  }

  /** `findByEmail`: emails are not unique, so two merchants with one email make the lookup fail. */
  function FindByEmail(rows: seq<Merchant>, email: string): (r: Result<Option<Merchant>, Thrown>)
    ensures r == Ok(None) <==> forall i :: 0 <= i < |rows| ==> rows[i].email != email
    ensures r.Ok? && r.value.Some? ==> r.value.value in rows && r.value.value.email == email
  {
    var matches := Seqs.Filter(rows, (m: Merchant) => m.email == email);
    assert (forall i :: 0 <= i < |rows| ==> rows[i].email != email) <==> matches == [] by {
      if matches != [] { assert matches[0] in rows; }
      if i :| 0 <= i < |rows| && rows[i].email == email { assert rows[i] in matches; }
    }
    SingleResult(matches)
  }

  /** `findActiveByApiKey`. */
  function FindActiveByApiKey(rows: seq<Merchant>, apiKey: string): (r: Result<Option<Merchant>, Thrown>)
    ensures r.Ok? && r.value.Some? ==> r.value.value in rows && r.value.value.apiKey == apiKey
                                       && r.value.value.status == MerchantStatus.ACTIVE
  {
    SingleResult(Seqs.Filter(rows, ActiveApiKeyIs(apiKey)))
  }

  /** Rows with unique keys hold at most one row with a given key. */
  lemma {:induction false} AtMostOneWithKey(rows: seq<Merchant>, apiKey: string, p: Merchant -> bool)
    requires UniqueApiKeys(rows)
    requires forall m :: p(m) ==> m.apiKey == apiKey
    ensures |Seqs.Filter(rows, p)| <= 1
    decreases |rows|
  {
    if rows != [] {
      assert UniqueApiKeys(rows[1..]) by {
        forall i, j | 0 <= i < j < |rows[1..]| ensures ApiKey(rows[1..][i]) != ApiKey(rows[1..][j]) {
          assert rows[1..][i] == rows[i + 1] && rows[1..][j] == rows[j + 1];
        }
      }
      AtMostOneWithKey(rows[1..], apiKey, p);
      if p(rows[0]) {
        // a second match would share rows[0]'s key
        forall i | 0 <= i < |rows[1..]| ensures !p(rows[1..][i]) {
          assert ApiKey(rows[0]) != ApiKey(rows[i + 1]);
        }
        Seqs.FilterNone(rows[1..], p);
      }
    }
  }

  /**
   * With unique api keys the lookup never fails, and the ACTIVE lookup is the plain
   * lookup restricted to ACTIVE merchants.
   */
  lemma ActiveLookupRestrictsLookup(rows: seq<Merchant>, apiKey: string)
    requires UniqueApiKeys(rows)
    ensures FindByApiKey(rows, apiKey).Ok?
    ensures FindActiveByApiKey(rows, apiKey) ==
      match FindByApiKey(rows, apiKey).value
      case Some(m) => if m.status == MerchantStatus.ACTIVE then Ok(Some(m)) else Ok(None)
      case None => Ok(None)
  {
    var all := Seqs.Filter(rows, ApiKeyIs(apiKey));
    var active := Seqs.Filter(rows, ActiveApiKeyIs(apiKey));
    AtMostOneWithKey(rows, apiKey, ApiKeyIs(apiKey));
    AtMostOneWithKey(rows, apiKey, ActiveApiKeyIs(apiKey));
    if all != [] && all[0].status == MerchantStatus.ACTIVE {
      assert all[0] in active;
      assert active[0] in all;
    }
  }

  /** `existsByApiKey`. */
  function ExistsByApiKey(rows: seq<Merchant>, apiKey: string): (b: bool)
    ensures b <==> exists i :: 0 <= i < |rows| && rows[i].apiKey == apiKey
  {
    exists i :: 0 <= i < |rows| && rows[i].apiKey == apiKey
  }

  /** An api key exists exactly when the lookup by that key finds a merchant (unique keys). */
  lemma ExistsMatchesLookup(rows: seq<Merchant>, apiKey: string)
    requires UniqueApiKeys(rows)
    ensures ExistsByApiKey(rows, apiKey) <==> FindByApiKey(rows, apiKey).Ok? && FindByApiKey(rows, apiKey).value.Some?
  {
    AtMostOneWithKey(rows, apiKey, ApiKeyIs(apiKey));
  }

  /** `existsByEmail`. */
  function ExistsByEmail(rows: seq<Merchant>, email: string): (b: bool)
    ensures b <==> exists i :: 0 <= i < |rows| && rows[i].email == email
  {
    exists i :: 0 <= i < |rows| && rows[i].email == email
  }

  /** The merchant rows (read-only for the core). */
  class MerchantTable {
    var rows: seq<Merchant>

    constructor (rows: seq<Merchant>)
      ensures this.rows == rows
    {
      this.rows := rows;
    }
  }
}
