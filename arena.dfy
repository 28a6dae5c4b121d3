/**
  The handle-indexed table of managed values that contract code and the host share. A few handles are
  reserved, well-known slots (the call-value slots and a temporary buffer); every other handle is handed
  out by `InsertNew`, each one new. Handle numbers are abstract: reserved slots are named, and allocated
  handles are numbered by an increasing counter.
*/
module Arena {
  import opened Common
  import opened DctPayment

  datatype ReservedSlot = CallValueMoax | CallValueMultiDct | CallValueSingleDct | MbufTemporary1

  datatype Handle = Reserved(slot: ReservedSlot) | Allocated(index: nat)

  /** A managed value: a big unsigned integer, a byte buffer, or a managed vector. */
  datatype ManagedValue =
    | BigUintValue(n: nat)
    | BufferValue(bytes: Bytes)
    | HandleVecValue(handles: seq<Handle>)
    | PaymentVecValue(payments: seq<PaymentValue>)

  /** Handle `h` holds `v`. */
  ghost predicate Holds(values: map<Handle, ManagedValue>, h: Handle, v: ManagedValue)
  {
    h in values && values[h] == v
  }

  /** Every handle of `before` still holds what it held: `after` only adds handles. */
  ghost predicate Extends(before: map<Handle, ManagedValue>, after: map<Handle, ManagedValue>)
  {
    forall h :: h in before ==> h in after && after[h] == before[h]
  }

  /** The handles `hs` hold, in order, the buffers `bs`. */
  ghost predicate BuffersHold(values: map<Handle, ManagedValue>, hs: seq<Handle>, bs: seq<Bytes>)
  {
    |hs| == |bs| && forall i :: 0 <= i < |hs| ==> Holds(values, hs[i], BufferValue(bs[i]))
  }

  /** Buffers held by handles stay held when the table only grows. */
  lemma BuffersHoldExtends(before: map<Handle, ManagedValue>, after: map<Handle, ManagedValue>,
                           hs: seq<Handle>, bs: seq<Bytes>)
    requires Extends(before, after) && BuffersHold(before, hs, bs)
    ensures BuffersHold(after, hs, bs)
  {
  }

  class ValueArena {
    var values: map<Handle, ManagedValue>
    var nextIndex: nat

    /** Every allocated handle in the table was handed out before. */
    ghost predicate Valid()
      reads this
    {
      forall h :: h in values && h.Allocated? ==> h.index < nextIndex
    }

    /** A handle that contract code may hold: a reserved slot or one handed out already. */
    predicate Issued(h: Handle)
      reads this
    {
      h.Reserved? || h.index < nextIndex
    }

    constructor ()
      ensures Valid() && values == map[] && nextIndex == 0
    {
      values := map[];
      nextIndex := 0;
    }

    /** `insert_new_big_uint` / `insert_new_managed_buffer`: stores the value under a new handle. */
    method InsertNew(v: ManagedValue) returns (h: Handle)
      requires Valid()
      modifies this
      ensures Valid()
      ensures h == Allocated(old(nextIndex)) && h !in old(values)
      ensures nextIndex == old(nextIndex) + 1
      ensures values == old(values)[h := v]
      ensures Extends(old(values), values) && Holds(values, h, v)
    {
      h := Allocated(nextIndex);
      values := values[h := v];
      nextIndex := nextIndex + 1;
    }

    /** `bi_overwrite` / `mb_overwrite` / the host's `load_*`: replaces what an issued handle holds. */
    method Overwrite(h: Handle, v: ManagedValue)
      requires Valid() && Issued(h)
      modifies this`values
      ensures Valid()
      ensures values == old(values)[h := v]
    {
      values := values[h := v];
    }

    /** `ManagedVec::push` on a vector of handles. */
    method PushHandle(vec: Handle, item: Handle)
      requires Valid() && vec in values && values[vec].HandleVecValue?
      modifies this`values
      ensures Valid()
      ensures values == old(values)[vec := HandleVecValue(old(values)[vec].handles + [item])]
    {
      values := values[vec := HandleVecValue(values[vec].handles + [item])];
    }
  }
}
