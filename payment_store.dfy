/**
 * The transaction ledger: records keyed by a generated id, binding it to the
 * provider that handled a payment and that provider's own id. Records are
 * only ever inserted and looked up.
 */
module PaymentStore {
  import opened Wrappers
  import opened Js
  import Uuid

  datatype PaymentRecord = PaymentRecord(
    id: string,
    providerId: Json,
    providerName: string,
    timestamp: string,
    responseData: Json)

  /** The default parameter `responseData = {}`, which replaces only `undefined`. */
  function DefaultResponseData(responseData: Json): (r: Json)
    ensures responseData == Undefined ==> r == Obj(map[])
    ensures responseData != Undefined ==> r == responseData
  {
    if responseData == Undefined then Obj(map[]) else responseData
  }

  class PaymentStoreRepository {
    var paymentRecords: map<string, PaymentRecord>

    /** Every record is stored under its own id. */
    ghost predicate Valid()
      reads this
    {
      forall k | k in paymentRecords :: paymentRecords[k].id == k
    }

    constructor ()
      ensures Valid() && paymentRecords == map[]
    {
      paymentRecords := map[];
    }

    /** Stores a new record under a fresh id; `now` is the clock reading. */
    method SavePaymentRecord(providerId: Json, providerName: string, responseData: Json, now: string)
      returns (record: PaymentRecord)
      requires Valid()
      modifies this
      ensures Valid()
      ensures record.id !in old(paymentRecords)
      ensures record.providerId == providerId && record.providerName == providerName
      ensures record.timestamp == now && record.responseData == DefaultResponseData(responseData)
      ensures paymentRecords == old(paymentRecords)[record.id := record]
      ensures forall k :: k in old(paymentRecords) ==> k in paymentRecords && paymentRecords[k] == old(paymentRecords)[k]
    {
      var id := Uuid.FreshId(paymentRecords);
      record := PaymentRecord(id, providerId, providerName, now, DefaultResponseData(responseData));
      paymentRecords := paymentRecords[id := record];
    }

    /** Looks a record up; an unknown id gives None (the source's `null`). */
    method GetPaymentRecord(id: string) returns (record: Option<PaymentRecord>)
      requires Valid()
      ensures record.Some? <==> id in paymentRecords
      ensures record.Some? ==> record.value == paymentRecords[id] && record.value.id == id
    {
      if id in paymentRecords {
        record := Some(paymentRecords[id]);
      } else {
        record := None;
      }
    }
  }

  /** A record just saved is found under the id it was given. */
  method SaveThenGet(repository: PaymentStoreRepository, providerId: Json, providerName: string, responseData: Json, now: string)
    returns (saved: PaymentRecord, found: Option<PaymentRecord>)
    requires repository.Valid()
    modifies repository
    ensures repository.Valid()
    ensures found == Some(saved)
    ensures saved.providerId == providerId && saved.providerName == providerName
  {
    saved := repository.SavePaymentRecord(providerId, providerName, responseData, now);
    found := repository.GetPaymentRecord(saved.id);
  }

  /** The service layer over the ledger: forwards to the repository. */
  class PaymentStoreService {
    const repository: PaymentStoreRepository

    constructor (repository: PaymentStoreRepository)
      ensures this.repository == repository
    {
      this.repository := repository;
    }

    method CreatePaymentRecord(providerId: Json, providerName: string, responseData: Json, now: string)
      returns (record: PaymentRecord)
      requires repository.Valid()
      modifies repository
      ensures repository.Valid()
      ensures record.id !in old(repository.paymentRecords)
      ensures record.providerId == providerId && record.providerName == providerName
      ensures record.timestamp == now && record.responseData == DefaultResponseData(responseData)
      ensures repository.paymentRecords == old(repository.paymentRecords)[record.id := record]
    {
      record := repository.SavePaymentRecord(providerId, providerName, DefaultResponseData(responseData), now);
    }

    method GetPaymentRecord(id: string) returns (record: Option<PaymentRecord>)
      requires repository.Valid()
      ensures record.Some? <==> id in repository.paymentRecords
      ensures record.Some? ==> record.value == repository.paymentRecords[id] && record.value.id == id
    {
      record := repository.GetPaymentRecord(id);
    }
  }
}
