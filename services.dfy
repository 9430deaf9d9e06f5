/**
 * The collaborators the two components await: the confidential-computation
 * instance (encrypt an input batch, generate a keypair, decrypt for a user),
 * the wallet's signer, and the chain that carries a `recordVisit`
 * transaction.  None of them is modelled beyond what the components rely on:
 * each call may fail with any thrown value, and on success returns a value
 * constrained only by what the caller reads from it.  There is no
 * cryptography; the instance simply remembers what each handle it issued
 * stands for.
 */
module Services {
  import opened Wrappers
  import opened Registry

  /** The deployed registry the client talks to. */
  const CONTRACT_ADDRESS: Address := "0x749b19F59B2264f846cFf9D68bDB098CE63E31aD"

  /** A value thrown by an awaited call: an `Error` with its message, or anything else. */
  datatype Thrown = ErrorObject(message: string) | NonError

  /** `error instanceof Error ? error.message : fallback` */
  function MessageOf(e: Thrown, fallback: string): string
  {
    match e
    case ErrorObject(message) => message
    case NonError => fallback
  }

  /** What the instance knows about a handle it issued: the contract and user it is bound to and the plaintext. */
  datatype Ciphertext = Ciphertext(contract: Address, user: Address, value: int)

  /** `createEncryptedInput(contract, user)` with the values added so far by `add32`. */
  datatype InputBuilder = InputBuilder(contract: Address, user: Address, values: seq<int>) {
    function Add32(v: int): InputBuilder {
      this.(values := values + [v])
    }
  }

  function CreateEncryptedInput(contract: Address, user: Address): InputBuilder {
    InputBuilder(contract, user, [])
  }

  /** The handles of an encrypted batch, in the order the values were added, and one proof for the batch. */
  datatype EncryptedInput = EncryptedInput(handles: seq<Handle>, inputProof: seq<bv8>)

  datatype Keypair = Keypair(publicKey: string, privateKey: string)

  datatype HandleContractPair = HandleContractPair(handle: Handle, contractAddress: Address)

  /** The typed-data payload a user signs to let the instance decrypt for them. */
  datatype Eip712 = Eip712(publicKey: string, contracts: seq<Address>, startTime: int, durationDays: int)

  /** One `userDecrypt` call, as the instance received it. */
  datatype DecryptRequest = DecryptRequest(
    pairs: seq<HandleContractPair>, keypair: Keypair, signature: string,
    contracts: seq<Address>, user: Address, startTime: int, durationDays: int)

  function RequestedHandles(pairs: seq<HandleContractPair>): set<Handle> {
    set p | p in pairs :: p.handle
  }

  class FheInstance {
    var ciphertexts: map<Handle, Ciphertext>
    var issued: nat
    /** Every `userDecrypt` call received, in order. */
    ghost var requests: seq<DecryptRequest>
    /** Every keypair `generateKeypair` handed out, in order. */
    ghost var keypairs: seq<Keypair>
    /** Every value a call on the instance threw, in order. */
    ghost var thrown: seq<Thrown>

    ghost predicate Valid()
      reads this
    {
      forall h | h in ciphertexts :: h.raw < issued
    }

    constructor ()
      ensures Valid() && ciphertexts == map[] && requests == [] && keypairs == [] && thrown == []
    {
      ciphertexts, issued, requests, keypairs, thrown := map[], 0, [], [], [];
    }

    /** `encrypt()` on a builder: one fresh handle per added value, in order, or a failure. */
    method Encrypt(input: InputBuilder) returns (r: Result<EncryptedInput, Thrown>)
      requires Valid()
      modifies this
      ensures Valid() && requests == old(requests) && keypairs == old(keypairs)
      ensures forall h | h in old(ciphertexts) :: h in ciphertexts && ciphertexts[h] == old(ciphertexts[h])
      ensures r.Failure? ==> ciphertexts == old(ciphertexts) && thrown == old(thrown) + [r.error]
      ensures r.Success? ==> thrown == old(thrown)
      ensures r.Success? ==> |r.value.handles| == |input.values|
      ensures r.Success? ==> forall i | 0 <= i < |input.values| ::
                var h := r.value.handles[i];
                h !in old(ciphertexts) && h in ciphertexts &&
                ciphertexts[h] == Ciphertext(input.contract, input.user, input.values[i])
      ensures r.Success? ==> forall i, j | 0 <= i < j < |r.value.handles| :: r.value.handles[i] != r.value.handles[j]
    {
      var ok: bool := *;
      if !ok {
        var e: Thrown := *;
        r := Failure(e);
        thrown := thrown + [e];
        return;
      }
      var n, first := |input.values|, issued;
      var handles := seq(n, i requires 0 <= i < n => Handle(first + i));
      ciphertexts := ciphertexts + map h | h in handles :: Ciphertext(input.contract, input.user, input.values[h.raw - first]);
      issued := first + n;
      var proof: seq<bv8> := *;
      r := Success(EncryptedInput(handles, proof));
    }

    /** `generateKeypair()`: an ephemeral keypair, logged as handed out, or a failure. */
    method GenerateKeypair() returns (r: Result<Keypair, Thrown>)
      modifies this
      ensures ciphertexts == old(ciphertexts) && issued == old(issued) && requests == old(requests)
      ensures r.Success? ==> keypairs == old(keypairs) + [r.value] && thrown == old(thrown)
      ensures r.Failure? ==> keypairs == old(keypairs) && thrown == old(thrown) + [r.error]
    {
      var ok: bool := *;
      if ok {
        var publicKey: string := *;
        var privateKey: string := *;
        r := Success(Keypair(publicKey, privateKey));
        keypairs := keypairs + [r.value];
      } else {
        var e: Thrown := *;
        r := Failure(e);
        thrown := thrown + [e];
      }
    }

    /**
     * `userDecrypt(pairs, privateKey, publicKey, signature, contracts, user,
     * startTime, durationDays)`: a failure, or plaintexts for some of the
     * requested handles — only handles bound to `user` and to one of the
     * signed contracts, and each with the value it was encrypted from.
     * Entries may be missing.
     */
    method UserDecrypt(pairs: seq<HandleContractPair>, keypair: Keypair, signature: string,
                       contracts: seq<Address>, user: Address, startTime: int, durationDays: int)
      returns (r: Result<map<Handle, int>, Thrown>)
      modifies this
      ensures ciphertexts == old(ciphertexts) && issued == old(issued) && keypairs == old(keypairs)
      ensures r.Failure? ==> thrown == old(thrown) + [r.error]
      ensures r.Success? ==> thrown == old(thrown)
      ensures requests == old(requests) + [DecryptRequest(pairs, keypair, signature, contracts, user, startTime, durationDays)]
      ensures r.Success? ==> forall h | h in r.value ::
                h in RequestedHandles(pairs) && h in ciphertexts &&
                ciphertexts[h].user == user && ciphertexts[h].contract in contracts &&
                r.value[h] == ciphertexts[h].value
    {
      requests := requests + [DecryptRequest(pairs, keypair, signature, contracts, user, startTime, durationDays)];
      var ok: bool := *;
      if ok {
        var revealed: set<Handle> := *;
        r := Success(map h | h in revealed && h in RequestedHandles(pairs) && h in ciphertexts &&
                             ciphertexts[h].user == user && ciphertexts[h].contract in contracts
                           :: ciphertexts[h].value);
      } else {
        var e: Thrown := *;
        r := Failure(e);
        thrown := thrown + [e];
      }
    }
  }

  /** One `signTypedData` call: the payload the wallet was asked to sign and what it answered. */
  datatype Signing = Signing(payload: Eip712, answer: Result<string, Thrown>)

  class Signer {
    const address: Address
    /** Every signing request this signer received, in order. */
    ghost var signings: seq<Signing>
    /**
     * Every value a transaction sent through this signer threw, when it was
     * sent or while its receipt was awaited, in order.
     */
    ghost var txErrors: seq<Thrown>
    /** Every transaction this signer sent successfully, in order. */
    ghost var sent: seq<PendingTx>

    constructor (address: Address)
      ensures this.address == address && signings == [] && txErrors == [] && sent == []
    {
      this.address := address;
      signings, txErrors, sent := [], [], [];
    }

    /** `signTypedData(domain, types, message)`: a hex signature, or a failure (the user may refuse). */
    method SignTypedData(payload: Eip712) returns (r: Result<string, Thrown>)
      modifies this
      ensures signings == old(signings) + [Signing(payload, r)] && txErrors == old(txErrors) && sent == old(sent)
    {
      var ok: bool := *;
      if ok {
        var signature: string := *;
        r := Success(signature);
      } else {
        var e: Thrown := *;
        r := Failure(e);
      }
      signings := signings + [Signing(payload, r)];
    }
  }

  /** The wallet hook's promise of a signer; it resolves to `resolved` (possibly undefined) or rejects. */
  class SignerPromise {
    const resolved: Signer?
    /** Whether the most recent await of this promise rejected. */
    ghost var rejected: bool
    /** Every value an await of this promise rejected with, in order. */
    ghost var rejections: seq<Thrown>

    constructor (resolved: Signer?)
      ensures this.resolved == resolved && !rejected && rejections == []
    {
      this.resolved := resolved;
      rejected, rejections := false, [];
    }

    method Await() returns (r: Result<Signer?, Thrown>)
      modifies this
      ensures rejected == r.Failure?
      ensures r.Success? ==> r.value == resolved && rejections == old(rejections)
      ensures r.Failure? ==> rejections == old(rejections) + [r.error]
    {
      var ok: bool := *;
      if ok {
        r := Success(resolved);
      } else {
        var e: Thrown := *;
        r := Failure(e);
        rejections := rejections + [e];
      }
      rejected := r.Failure?;
    }
  }

  /** A sent `recordVisit` transaction that has not been confirmed yet. */
  datatype PendingTx = PendingTx(
    hash: string, from: Address, encryptedCountryId: Handle, encryptedCityId: Handle,
    inputProof: seq<bv8>, travelTimestamp: Uint64)

  /** The visit a transaction records once it is confirmed. */
  function TxVisit(tx: PendingTx): Visit {
    Visit(tx.encryptedCountryId, tx.encryptedCityId, tx.travelTimestamp)
  }

  /**
   * `contract.recordVisit(country, city, proof, timestamp)` through `signer`:
   * the sent transaction, or a failure.  A timestamp outside the uint64 range
   * cannot be encoded and always fails.
   */
  method SendRecordVisit(signer: Signer, encryptedCountryId: Handle, encryptedCityId: Handle,
                         inputProof: seq<bv8>, travelTimestamp: int)
    returns (r: Result<PendingTx, Thrown>)
    modifies signer
    ensures signer.signings == old(signer.signings)
    ensures r.Failure? ==> signer.txErrors == old(signer.txErrors) + [r.error]
    ensures r.Success? ==> signer.txErrors == old(signer.txErrors) && signer.sent == old(signer.sent) + [r.value]
    ensures r.Failure? ==> signer.sent == old(signer.sent)
    ensures !(0 <= travelTimestamp < 0x1_0000_0000_0000_0000) ==> r.Failure?
    ensures r.Success? ==>
              && 0 <= travelTimestamp < 0x1_0000_0000_0000_0000
              && r.value == PendingTx(r.value.hash, signer.address, encryptedCountryId, encryptedCityId,
                                      inputProof, travelTimestamp)
  {
    var ok: bool := *;
    if ok && 0 <= travelTimestamp < 0x1_0000_0000_0000_0000 {
      var hash: string := *;
      r := Success(PendingTx(hash, signer.address, encryptedCountryId, encryptedCityId, inputProof, travelTimestamp));
      signer.sent := signer.sent + [r.value];
    } else {
      var e: Thrown := *;
      r := Failure(e);
      signer.txErrors := signer.txErrors + [e];
    }
  }

  /**
   * `tx.wait()` on a transaction sent through `signer`: the transaction is
   * confirmed and the registry appends its visit, or the wait throws.  A
   * throw does not say whether the transaction was mined: the visit may or
   * may not have been appended.
   */
  method WaitForReceipt(registry: TravelRegistry, signer: Signer, tx: PendingTx) returns (r: Result<(), Thrown>)
    modifies registry, signer
    ensures signer.signings == old(signer.signings) && signer.sent == old(signer.sent)
    ensures r.Failure? ==> signer.txErrors == old(signer.txErrors) + [r.error]
    ensures r.Success? ==> signer.txErrors == old(signer.txErrors)
    ensures r.Success? ==> registry.ledger == Appended(old(registry.ledger), tx.from, TxVisit(tx))
    ensures r.Failure? ==>
              || registry.ledger == old(registry.ledger)
              || registry.ledger == Appended(old(registry.ledger), tx.from, TxVisit(tx))
  {
    var mined: bool := *;
    if mined {
      registry.RecordVisit(tx.from, tx.encryptedCountryId, tx.encryptedCityId, tx.inputProof, tx.travelTimestamp);
    }
    var ok: bool := *;
    if mined && ok {
      r := Success(());
    } else {
      var e: Thrown := *;
      r := Failure(e);
      signer.txErrors := signer.txErrors + [e];
    }
  }
}
