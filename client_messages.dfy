/**
 * The fixed texts the test client sends on its own, and the fact that none
 * of them holds a line terminator. They sit in a module of their own so
 * that reasoning about their characters stays apart from the client loop.
 */
module ClientMessages {
  // The five messages of the "Auto" option, in sending order. The longer
  // ones are written as two halves so that the verifier sees every character
  // of each half; the text is the same.
  const ConnectMessage: string := "Client connected to the server"
  const AutoMessage: string := "Auto log messages: " + "All log messages printed at once"
  const DatabaseMessage: string := "Database connection failed."
  const DiskMessage: string := "Low disk space. " + "Consider freeing up space."
  const DebugMessage: string := "Debugging information: " + "Session ID - 696969"

  /** The message the "Exit" option sends. */
  const DisconnectMessage: string := "Client disconnected from the server"

  // None of the fixed messages holds a line terminator; one lemma each,
  // because the verifier handles one literal at a time far more cheaply.

  lemma ConnectSingleLine()
    ensures '\n' !in ConnectMessage
  {
  }

  lemma AutoSingleLine()
    ensures '\n' !in AutoMessage
  {
  }

  lemma DatabaseSingleLine()
    ensures '\n' !in DatabaseMessage
  {
  }

  lemma DiskSingleLine()
    ensures '\n' !in DiskMessage
  {
  }

  lemma DebugSingleLine()
    ensures '\n' !in DebugMessage
  {
  }

  lemma DisconnectSingleLine()
    ensures '\n' !in DisconnectMessage
  {
  }
}
