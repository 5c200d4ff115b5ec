/** The conversation settings of the process-wide configuration object. */
module Config {

  /** Number of user and assistant turns kept after the system message. */
  const MaxHistoryLength: nat := 20

  /** The instruction every conversation starts with. */
  const SystemMessage: string :=
    "You are a helpful WhatsApp assistant. Keep responses "
    + "concise and friendly. You can also analyze images "
    + "and documents."
}
