/** src/services/chat/commands.ts and src/services/chat/types.ts: slash-command parsing. */
module ChatCommands {
  import opened ChatTypes

  /** `ChatSlashCommandAction`. */
  datatype SlashAction =
    | ShowOverlay(overlay: OverlayMode)
    | ClearConversation
    | CopyLastAssistantMessage
    | Exit
    | Unknown(command: string)

  /** The exact command strings `parse` recognises. */
  const KnownCommands: set<string> := {"/model", "/clear", "/config", "/help", "/copy", "/exit", "/quit"}

  /** `parse(command)`. */
  function Parse(command: string): (a: SlashAction)
    ensures a.ShowOverlay? ==> a.overlay != NoOverlay
  {
    match command
    case "/model" => ShowOverlay(ModelSelector)
    case "/clear" => ClearConversation
    case "/config" => ShowOverlay(ConfigSetup)
    case "/help" => ShowOverlay(Help)
    case "/copy" => CopyLastAssistantMessage
    case "/exit" => Exit
    case "/quit" => Exit
    case _ => Unknown(command)
  }

  /** `parse` is total and exact: a string is unknown precisely when it is not one of
      the seven command strings, and then it is carried unchanged. */
  lemma ParseUnknownExactly(command: string)
    ensures Parse(command).Unknown? <==> command !in KnownCommands
    ensures Parse(command).Unknown? ==> Parse(command).command == command
  {
  }

  /** The three overlay commands, and the two spellings of exit. */
  lemma ParseOverlaysAndExit(command: string)
    ensures Parse(command) == ShowOverlay(ModelSelector) <==> command == "/model"
    ensures Parse(command) == ShowOverlay(ConfigSetup) <==> command == "/config"
    ensures Parse(command) == ShowOverlay(Help) <==> command == "/help"
    ensures Parse(command) == ClearConversation <==> command == "/clear"
    ensures Parse(command) == CopyLastAssistantMessage <==> command == "/copy"
    ensures Parse(command) == Exit <==> command == "/exit" || command == "/quit"
  {
  }

  /** Matching is case-sensitive. */
  lemma ParseIsCaseSensitive()
    ensures Parse("/MODEL") == Unknown("/MODEL") && Parse("/Exit") == Unknown("/Exit")
  {
  }
}
