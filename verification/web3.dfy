/** The browser-side contract helpers: a contract-address configuration
    cell backed by local storage, a transaction log kept as one serialized
    blob in local storage, and wrappers around remote contract calls whose
    answers (or failures) are passed in as parameters. */
module Web3 {
  import opened Wrappers

  const CONTRACT_ADDRESS_KEY := "healthInsuranceContractAddress"
  const TRANSACTIONS_KEY := "transactions"

  const INSURANCE_PURCHASE := "Insurance Purchase"
  const MEDICATION_PURCHASE := "Medication Purchase"

  const NO_WALLET := "MetaMask is not installed!"
  const ADDRESS_NOT_SET := "Contract address not set"
  const INSURANCE_FAILED := "Failed to purchase insurance: "
  const MEDICATION_FAILED := "Failed to purchase medication: "

  /** The `details` object of a stored record. */
  datatype Details =
    | InsuranceDetails(planType: string, price: nat)
    | MedicationDetails(medicationId: string, amount: nat)

  /** A stored record; `timestamp` is in milliseconds. */
  datatype Transaction = Transaction(hash: string, kind: string, details: Details, timestamp: int)

  /** The JSON text of the log. `parse` fails on a malformed blob. */
  datatype Codec = Codec(parse: string -> Option<seq<Transaction>>, serialize: seq<Transaction> -> string)

  /** Serializing gives a non-empty text that parses back to the same log. */
  ghost predicate Faithful(codec: Codec)
  {
    forall log: seq<Transaction> ::
      codec.serialize(log) != "" && codec.parse(codec.serialize(log)) == Some(log)
  }

  /** The log as read back from storage: the parsed list, or empty when
      nothing is stored or the blob does not parse. */
  function LoadLog(codec: Codec, storage: map<string, string>): (log: seq<Transaction>)
    ensures TRANSACTIONS_KEY !in storage ==> log == []
    ensures TRANSACTIONS_KEY in storage && storage[TRANSACTIONS_KEY] == "" ==> log == []
    ensures TRANSACTIONS_KEY in storage && storage[TRANSACTIONS_KEY] != "" &&
            codec.parse(storage[TRANSACTIONS_KEY]).Some? ==>
              log == codec.parse(storage[TRANSACTIONS_KEY]).value
    ensures log != [] ==> TRANSACTIONS_KEY in storage && codec.parse(storage[TRANSACTIONS_KEY]) == Some(log)
  {
    if TRANSACTIONS_KEY in storage && storage[TRANSACTIONS_KEY] != "" then
      match codec.parse(storage[TRANSACTIONS_KEY])
      case Some(parsed) => parsed
      case None => []
    else
      []
  }

  /** Storage after one record is pushed onto the log read back from it. */
  function AppendToStorage(codec: Codec, storage: map<string, string>, tx: Transaction): (s: map<string, string>)
    ensures s.Keys == storage.Keys + {TRANSACTIONS_KEY}
    ensures forall k :: k in storage && k != TRANSACTIONS_KEY ==> s[k] == storage[k]
  {
    storage[TRANSACTIONS_KEY := codec.serialize(LoadLog(codec, storage) + [tx])]
  }

  /** Number of records carrying the given hash. */
  function CountHash(log: seq<Transaction>, hash: string): (n: nat)
    ensures n <= |log|
    ensures n == 0 <==> forall i :: 0 <= i < |log| ==> log[i].hash != hash
  {
    if log == [] then 0
    else CountHash(log[..|log| - 1], hash) + (if log[|log| - 1].hash == hash then 1 else 0)
  }

  /** Pushing a record extends the log by exactly that record at the end;
      the earlier records are kept in order. */
  lemma AppendExtendsLog(codec: Codec, storage: map<string, string>, tx: Transaction)
    requires Faithful(codec)
    ensures LoadLog(codec, AppendToStorage(codec, storage, tx)) == LoadLog(codec, storage) + [tx]
  {
    var log := LoadLog(codec, storage) + [tx];
    assert codec.serialize(log) != "" && codec.parse(codec.serialize(log)) == Some(log);
  }

  /** An absent or unreadable blob is replaced by a log holding only the new record. */
  lemma AppendToUnreadableLogStartsFresh(codec: Codec, storage: map<string, string>, tx: Transaction)
    requires Faithful(codec)
    requires TRANSACTIONS_KEY !in storage || storage[TRANSACTIONS_KEY] == "" ||
             codec.parse(storage[TRANSACTIONS_KEY]).None?
    ensures LoadLog(codec, AppendToStorage(codec, storage, tx)) == [tx]
  {
    AppendExtendsLog(codec, storage, tx);
  }

  lemma CountHashAppend(log: seq<Transaction>, tx: Transaction)
    ensures CountHash(log + [tx], tx.hash) == CountHash(log, tx.hash) + 1
  {
    assert (log + [tx])[..|log + [tx]| - 1] == log;
  }

  /** Storing never deduplicates: a hash already in the log gains one more record. */
  lemma AppendDoesNotDeduplicate(codec: Codec, storage: map<string, string>, tx: Transaction)
    requires Faithful(codec)
    ensures CountHash(LoadLog(codec, AppendToStorage(codec, storage, tx)), tx.hash)
            == CountHash(LoadLog(codec, storage), tx.hash) + 1
  {
    AppendExtendsLog(codec, storage, tx);
    CountHashAppend(LoadLog(codec, storage), tx);
  }

  /** Storing the same hash twice leaves two records with that hash. */
  lemma StoringTwiceKeepsBoth(codec: Codec, storage: map<string, string>, tx1: Transaction, tx2: Transaction)
    requires Faithful(codec)
    requires tx1.hash == tx2.hash && CountHash(LoadLog(codec, storage), tx1.hash) == 0
    ensures CountHash(LoadLog(codec, AppendToStorage(codec, AppendToStorage(codec, storage, tx1), tx2)), tx1.hash) == 2
  {
    AppendDoesNotDeduplicate(codec, storage, tx1);
    AppendDoesNotDeduplicate(codec, AppendToStorage(codec, storage, tx1), tx2);
  }

  /** `getContractAddress`: a non-empty stored address wins over the one held in memory. */
  function ResolveAddress(storage: map<string, string>, inMemory: string): (address: string)
    ensures address == inMemory || (CONTRACT_ADDRESS_KEY in storage && address == storage[CONTRACT_ADDRESS_KEY])
    ensures address == "" <==> inMemory == "" && (CONTRACT_ADDRESS_KEY !in storage || storage[CONTRACT_ADDRESS_KEY] == "")
  {
    if CONTRACT_ADDRESS_KEY in storage && storage[CONTRACT_ADDRESS_KEY] != "" then
      storage[CONTRACT_ADDRESS_KEY]
    else
      inMemory
  }

  /** After `setContractAddress(a)` the address read back is `a`. */
  lemma SetThenGet(storage: map<string, string>, address: string)
    ensures ResolveAddress(storage[CONTRACT_ADDRESS_KEY := address], address) == address
  {
  }

  /** A stored address overrides whatever is held in memory. */
  lemma StoredOverrides(storage: map<string, string>, inMemory: string, other: string)
    requires CONTRACT_ADDRESS_KEY in storage && storage[CONTRACT_ADDRESS_KEY] != ""
    ensures ResolveAddress(storage, inMemory) == ResolveAddress(storage, other)
  {
  }

  /** `getContract`: the address the contract handle is built on, or the
      error it throws. The stored address is consulted only when none is
      held in memory. */
  function ContractFor(walletInstalled: bool, inMemory: string, storage: map<string, string>): (r: Result<string, string>)
    ensures !walletInstalled ==> r == Failure(NO_WALLET)
    ensures walletInstalled && inMemory != "" ==> r == Success(inMemory)
    ensures r.Failure? <==> !walletInstalled || ResolveAddress(storage, inMemory) == ""
    ensures r.Success? ==> r.value == ResolveAddress(storage, inMemory) || r.value == inMemory
    ensures r.Success? ==> r.value != ""
    ensures walletInstalled && ResolveAddress(storage, inMemory) == "" ==> r == Failure(ADDRESS_NOT_SET)
  {
    if !walletInstalled then Failure(NO_WALLET)
    else if inMemory != "" then Success(inMemory)
    else
      var stored := ResolveAddress(storage, inMemory);
      if stored == "" then Failure(ADDRESS_NOT_SET) else Success(stored)
  }

  /** The in-memory address after `getContract`: a stored address is adopted
      only when the wallet is installed and memory holds none. */
  function AddressAfterContract(walletInstalled: bool, inMemory: string, storage: map<string, string>): (address: string)
    ensures !walletInstalled || inMemory != "" ==> address == inMemory
    ensures walletInstalled && inMemory == "" ==> address == ResolveAddress(storage, "")
    ensures ContractFor(walletInstalled, inMemory, storage).Success? ==>
              address == ContractFor(walletInstalled, inMemory, storage).value
  {
    if walletInstalled && inMemory == "" then ResolveAddress(storage, "") else inMemory
  }

  /** Insurance as the contract reports it; dates in seconds. */
  datatype ChainInsurance = ChainInsurance(planType: string, startDate: int, endDate: int, isActive: bool, hasActiveInsurance: bool)

  /** Insurance as the front end holds it; dates in milliseconds. */
  datatype UserInsurance = UserInsurance(planType: string, startDate: int, endDate: int, isActive: bool, hasActiveInsurance: bool)

  /** The "no insurance" object, dated now. */
  function NoInsurance(now: int): (ins: UserInsurance)
    ensures ins.planType == "" && !ins.isActive && !ins.hasActiveInsurance
    ensures ins.startDate == now && ins.endDate == now
  {
    UserInsurance("", now, now, false, false)
  }

  function FromChain(c: ChainInsurance): (ins: UserInsurance)
    ensures ins.planType == c.planType && ins.isActive == c.isActive && ins.hasActiveInsurance == c.hasActiveInsurance
    ensures ins.startDate == c.startDate * 1000 && ins.endDate == c.endDate * 1000
  {
    UserInsurance(c.planType, c.startDate * 1000, c.endDate * 1000, c.isActive, c.hasActiveInsurance)
  }

  /** `getUserInsurance`: the contract's answer converted to milliseconds,
      or the "no insurance" object on any failure. It never fails. */
  function InsuranceOrDefault(contract: Result<string, string>, onChain: Result<ChainInsurance, string>, now: int): (ins: UserInsurance)
    ensures contract.Failure? || onChain.Failure? ==> ins == NoInsurance(now)
    ensures contract.Success? && onChain.Success? ==> ins == FromChain(onChain.value)
    ensures ins.hasActiveInsurance ==> contract.Success? && onChain.Success? && onChain.value.hasActiveInsurance
  {
    if contract.Success? && onChain.Success? then FromChain(onChain.value) else NoInsurance(now)
  }

  /** `isMedicationAvailable`: the contract's answer, or false on any failure. */
  function AvailableOrFalse(contract: Result<string, string>, onChain: Result<bool, string>): (available: bool)
    ensures available <==> contract.Success? && onChain == Success(true)
  {
    contract.Success? && onChain.Success? && onChain.value
  }

  datatype ChainPurchase = ChainPurchase(medicationId: string, originalPrice: nat, coveredPrice: nat, coPayAmount: nat, purchaseDate: int)

  /** A purchase as listed: amounts formatted, date in milliseconds. */
  datatype PurchaseRecord = PurchaseRecord(medicationId: string, originalPrice: string, coveredPrice: string, coPayAmount: string, purchaseDate: int)

  function ListPurchase(p: ChainPurchase, formatEther: nat -> string): (r: PurchaseRecord)
    ensures r.medicationId == p.medicationId && r.purchaseDate == p.purchaseDate * 1000
    ensures r.originalPrice == formatEther(p.originalPrice) && r.coveredPrice == formatEther(p.coveredPrice)
    ensures r.coPayAmount == formatEther(p.coPayAmount)
  {
    PurchaseRecord(p.medicationId, formatEther(p.originalPrice), formatEther(p.coveredPrice),
                   formatEther(p.coPayAmount), p.purchaseDate * 1000)
  }

  /** `getMedicationPurchaseHistory`: every purchase in contract order, or
      the empty list on any failure. */
  function HistoryOrEmpty(contract: Result<string, string>, onChain: Result<seq<ChainPurchase>, string>,
                          formatEther: nat -> string): (r: seq<PurchaseRecord>)
    ensures contract.Failure? || onChain.Failure? ==> r == []
    ensures contract.Success? && onChain.Success? ==>
              |r| == |onChain.value| &&
              forall i :: 0 <= i < |r| ==> r[i] == ListPurchase(onChain.value[i], formatEther)
  {
    if contract.Success? && onChain.Success? then
      seq(|onChain.value|, i requires 0 <= i < |onChain.value| => ListPurchase(onChain.value[i], formatEther))
    else
      []
  }

  datatype Receipt = Receipt(transactionHash: string)

  /** What a purchase leaves behind: its outcome and the new storage. */
  datatype PurchaseResult = PurchaseResult(outcome: Result<Receipt, string>, storage: map<string, string>)

  /** `purchaseInsurance` / `purchaseMedication`: obtain the contract,
      submit, record the submitted hash, then wait for confirmation. Every
      failure is rethrown behind `prefix`. */
  function Purchase(codec: Codec, contract: Result<string, string>, storage: map<string, string>,
                    kind: string, details: Details, submission: Result<string, string>,
                    confirmation: Result<Receipt, string>, now: int, prefix: string): (r: PurchaseResult)
    ensures contract.Failure? ==> r == PurchaseResult(Failure(prefix + contract.error), storage)
    ensures contract.Success? && submission.Failure? ==> r == PurchaseResult(Failure(prefix + submission.error), storage)
    ensures contract.Success? && submission.Success? ==>
              r.storage == AppendToStorage(codec, storage, Transaction(submission.value, kind, details, now))
    ensures r.outcome.Success? <==> contract.Success? && submission.Success? && confirmation.Success?
    ensures r.outcome.Success? ==> r.outcome == confirmation
    ensures contract.Success? && submission.Success? && confirmation.Failure? ==>
              r.outcome == Failure(prefix + confirmation.error)
  {
    if contract.Failure? then PurchaseResult(Failure(prefix + contract.error), storage)
    else if submission.Failure? then PurchaseResult(Failure(prefix + submission.error), storage)
    else
      var stored := AppendToStorage(codec, storage, Transaction(submission.value, kind, details, now));
      match confirmation
      case Success(receipt) => PurchaseResult(Success(receipt), stored)
      case Failure(e) => PurchaseResult(Failure(prefix + e), stored)
  }

  /** A submission that fails writes nothing to the log. */
  lemma FailedSubmissionLeavesLog(codec: Codec, contract: Result<string, string>, storage: map<string, string>,
                                  kind: string, details: Details, message: string,
                                  confirmation: Result<Receipt, string>, now: int, prefix: string)
    ensures var r := Purchase(codec, contract, storage, kind, details, Failure(message), confirmation, now, prefix);
            r.outcome.Failure? && LoadLog(codec, r.storage) == LoadLog(codec, storage)
  {
  }

  /** A submitted purchase stays in the log even when its confirmation fails;
      the record is the last one and carries the submitted hash. */
  lemma ConfirmationFailureKeepsRecord(codec: Codec, address: string, storage: map<string, string>,
                                       kind: string, details: Details, hash: string, message: string,
                                       now: int, prefix: string)
    requires Faithful(codec)
    ensures var r := Purchase(codec, Success(address), storage, kind, details, Success(hash), Failure(message), now, prefix);
            r.outcome == Failure(prefix + message) &&
            LoadLog(codec, r.storage) == LoadLog(codec, storage) + [Transaction(hash, kind, details, now)]
  {
    AppendExtendsLog(codec, storage, Transaction(hash, kind, details, now));
  }

  /** The contract-address cell, the local storage it persists to, and the
      operations that read and write them. */
  class Web3Session {
    var contractAddress: string
    var storage: map<string, string>
    const codec: Codec

    /** A fresh page: nothing in memory, storage as left by earlier visits. */
    constructor (codec: Codec, storage: map<string, string>)
      ensures this.codec == codec && this.storage == storage && contractAddress == ""
    {
      this.codec := codec;
      this.storage := storage;
      contractAddress := "";
    }

    /** `getTransactionHistory`. */
    function TransactionHistory(): (log: seq<Transaction>)
      reads this
    {
      LoadLog(codec, storage)
    }

    method SetContractAddress(address: string)
      modifies this
      ensures contractAddress == address
      ensures storage == old(storage)[CONTRACT_ADDRESS_KEY := address]
    {
      contractAddress := address;
      storage := storage[CONTRACT_ADDRESS_KEY := address];
    }

    method GetContractAddress() returns (address: string)
      modifies this`contractAddress
      ensures address == contractAddress == ResolveAddress(storage, old(contractAddress))
    {
      if CONTRACT_ADDRESS_KEY in storage && storage[CONTRACT_ADDRESS_KEY] != "" {
        contractAddress := storage[CONTRACT_ADDRESS_KEY];
      }
      address := contractAddress;
    }

    method GetContract(walletInstalled: bool) returns (contract: Result<string, string>)
      modifies this`contractAddress
      ensures contract == ContractFor(walletInstalled, old(contractAddress), storage)
      ensures contractAddress == AddressAfterContract(walletInstalled, old(contractAddress), storage)
    {
      if !walletInstalled {
        return Failure(NO_WALLET);
      }
      if contractAddress == "" {
        var stored := GetContractAddress();
        if stored == "" {
          return Failure(ADDRESS_NOT_SET);
        }
      }
      contract := Success(contractAddress);
    }

    /** `storeTransaction`: read the log, push one record stamped `now`,
        write the whole log back. */
    method StoreTransaction(hash: string, kind: string, details: Details, now: int) returns (tx: Transaction)
      modifies this`storage
      ensures tx == Transaction(hash, kind, details, now)
      ensures storage == AppendToStorage(codec, old(storage), tx)
      ensures Faithful(codec) ==> TransactionHistory() == old(TransactionHistory()) + [tx]
    {
      tx := Transaction(hash, kind, details, now);
      var transactions: seq<Transaction> := [];
      if TRANSACTIONS_KEY in storage && storage[TRANSACTIONS_KEY] != "" {
        match codec.parse(storage[TRANSACTIONS_KEY]) {
          case Some(parsed) => transactions := parsed;
          case None =>
        }
      }
      transactions := transactions + [tx];
      storage := storage[TRANSACTIONS_KEY := codec.serialize(transactions)];
      if Faithful(codec) {
        AppendExtendsLog(codec, old(storage), tx);
      }
    }

    method GetUserInsurance(walletInstalled: bool, onChain: Result<ChainInsurance, string>, now: int)
      returns (insurance: UserInsurance)
      modifies this`contractAddress
      ensures insurance == InsuranceOrDefault(ContractFor(walletInstalled, old(contractAddress), storage), onChain, now)
      ensures contractAddress == AddressAfterContract(walletInstalled, old(contractAddress), storage)
    {
      var contract := GetContract(walletInstalled);
      insurance := InsuranceOrDefault(contract, onChain, now);
    }

    method IsMedicationAvailable(walletInstalled: bool, onChain: Result<bool, string>) returns (available: bool)
      modifies this`contractAddress
      ensures available == AvailableOrFalse(ContractFor(walletInstalled, old(contractAddress), storage), onChain)
      ensures contractAddress == AddressAfterContract(walletInstalled, old(contractAddress), storage)
    {
      var contract := GetContract(walletInstalled);
      available := AvailableOrFalse(contract, onChain);
    }

    method GetMedicationPurchaseHistory(walletInstalled: bool, onChain: Result<seq<ChainPurchase>, string>,
                                        formatEther: nat -> string) returns (history: seq<PurchaseRecord>)
      modifies this`contractAddress
      ensures history == HistoryOrEmpty(ContractFor(walletInstalled, old(contractAddress), storage), onChain, formatEther)
      ensures contractAddress == AddressAfterContract(walletInstalled, old(contractAddress), storage)
    {
      var contract := GetContract(walletInstalled);
      history := HistoryOrEmpty(contract, onChain, formatEther);
    }

    method PurchaseInsurance(walletInstalled: bool, planType: string, price: nat,
                             submission: Result<string, string>, confirmation: Result<Receipt, string>, now: int)
      returns (outcome: Result<Receipt, string>)
      modifies this
      ensures PurchaseResult(outcome, storage) ==
              Purchase(codec, ContractFor(walletInstalled, old(contractAddress), old(storage)), old(storage),
                       INSURANCE_PURCHASE, InsuranceDetails(planType, price), submission, confirmation, now,
                       INSURANCE_FAILED)
      ensures contractAddress == AddressAfterContract(walletInstalled, old(contractAddress), old(storage))
    {
      outcome := Submit(walletInstalled, INSURANCE_PURCHASE, InsuranceDetails(planType, price),
                        submission, confirmation, now, INSURANCE_FAILED);
    }

    method PurchaseMedication(walletInstalled: bool, medicationId: string, amount: nat,
                              submission: Result<string, string>, confirmation: Result<Receipt, string>, now: int)
      returns (outcome: Result<Receipt, string>)
      modifies this
      ensures PurchaseResult(outcome, storage) ==
              Purchase(codec, ContractFor(walletInstalled, old(contractAddress), old(storage)), old(storage),
                       MEDICATION_PURCHASE, MedicationDetails(medicationId, amount), submission, confirmation, now,
                       MEDICATION_FAILED)
      ensures contractAddress == AddressAfterContract(walletInstalled, old(contractAddress), old(storage))
      ensures Faithful(codec) && outcome.Success? ==>
                |TransactionHistory()| > 0 &&
                TransactionHistory()[|TransactionHistory()| - 1] ==
                  Transaction(submission.value, MEDICATION_PURCHASE, MedicationDetails(medicationId, amount), now)
    {
      outcome := Submit(walletInstalled, MEDICATION_PURCHASE, MedicationDetails(medicationId, amount),
                        submission, confirmation, now, MEDICATION_FAILED);
      if Faithful(codec) && outcome.Success? {
        AppendExtendsLog(codec, old(storage),
                         Transaction(submission.value, MEDICATION_PURCHASE, MedicationDetails(medicationId, amount), now));
      }
    }

    /** The body shared by both purchase functions. */
    method Submit(walletInstalled: bool, kind: string, details: Details,
                  submission: Result<string, string>, confirmation: Result<Receipt, string>, now: int, prefix: string)
      returns (outcome: Result<Receipt, string>)
      modifies this
      ensures PurchaseResult(outcome, storage) ==
              Purchase(codec, ContractFor(walletInstalled, old(contractAddress), old(storage)), old(storage),
                       kind, details, submission, confirmation, now, prefix)
      ensures contractAddress == AddressAfterContract(walletInstalled, old(contractAddress), old(storage))
    {
      var contract := GetContract(walletInstalled);
      if contract.Failure? {
        return Failure(prefix + contract.error);
      }
      if submission.Failure? {
        return Failure(prefix + submission.error);
      }
      var _ := StoreTransaction(submission.value, kind, details, now);
      match confirmation {
        case Success(receipt) => outcome := Success(receipt);
        case Failure(e) => outcome := Failure(prefix + e);
      }
    }
  }
}
