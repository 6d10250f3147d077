/** The wizard's step enumeration and session record (types.ts). */
module Types {
  import opened Wrappers

  /** `AppStep`: a numeric enumeration, so steps compare and subtract as integers. */
  newtype AppStep = n: int | 0 <= n <= 4
  {
    static const UploadBase: AppStep := 0
    static const UploadLogo: AppStep := 1
    static const Describe: AppStep := 2
    static const Generating: AppStep := 3
    static const Result: AppStep := 4
  }

  /**
   * The session fields App keeps in one `MockupState` value. The interface also
   * declares `mockupType`, but App never stores one, so the record has no such field.
   */
  datatype MockupState = MockupState(
    baseImage: Option<string>,
    logoImage: Option<string>,
    description: string,
    generatedImage: Option<string>,
    error: Option<string>)

  /** The state App starts from and `handleReset` restores. */
  const InitialState := MockupState(None, None, "", None, None)
}
