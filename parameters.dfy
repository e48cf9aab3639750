/** The parameter keys of the x-callback-url 1.0 convention, and the two keys
    this library uses to carry an error back to the caller. */
module Parameters {

  /** The requesting application's name. */
  const SourceAppKey: string := "x-source"
  /** Return address on success. */
  const SuccessKey: string := "x-success"
  /** Return address on failure. */
  const ErrorKey: string := "x-error"
  /** Return address on cancellation. */
  const CancelKey: string := "x-cancel"
  /** Numeric code added to an error return. */
  const ErrorCodeKey: string := "errorCode"
  /** Message added to an error return. */
  const ErrorMessageKey: string := "errorMessage"

  /** The four `x-` keys of the convention. */
  function ReservedKeys(): (keys: set<string>)
    ensures |keys| == 4
  {
    {SourceAppKey, SuccessKey, ErrorKey, CancelKey}
  }

  /** The six keys are pairwise distinct, so the error payload never lands on
      a reserved `x-` key. */
  lemma KeysDistinct()
    ensures |[SourceAppKey, SuccessKey, ErrorKey, CancelKey, ErrorCodeKey, ErrorMessageKey]| == 6
    ensures forall i, j :: 0 <= i < j < 6 ==>
      [SourceAppKey, SuccessKey, ErrorKey, CancelKey, ErrorCodeKey, ErrorMessageKey][i]
      != [SourceAppKey, SuccessKey, ErrorKey, CancelKey, ErrorCodeKey, ErrorMessageKey][j]
    ensures ErrorCodeKey !in ReservedKeys() && ErrorMessageKey !in ReservedKeys()
  {
  }
}
