/** The model catalog and default prompt (constants.ts), and the fixed strings
    the controller and the service write. */
module Constants {
  import opened Types

  const GeminiModels: seq<Model> := [
    Model("gemini-3-flash-preview", "Gemini 3 Flash (Fast)", "Google",
          "Optimized for speed and efficiency. Best for everyday tasks.",
          ["Speed", "Reasoning", "Conciseness"]),
    Model("gemini-3-pro-preview", "Gemini 3 Pro (Complex)", "Google",
          "Our most capable model for highly complex tasks, coding, and math.",
          ["Deep Reasoning", "Coding", "Multimodal"]),
    Model("gemini-2.5-flash-image", "Gemini 2.5 Flash Image", "Google",
          "State-of-the-art vision and image understanding capabilities.",
          ["Vision", "Image Editing", "Quick Analysis"])
  ]

  /** The model selected at start-up. */
  const DefaultModel: Model := GeminiModels[0]

  const DefaultSystemPrompt: string :=
    "You are XARAXIA, a helpful and highly intelligent assistant. You provide concise, accurate, and professional answers. If you don't know something, state it clearly."

  /** Title of a fresh conversation, and the title fallback of the title generator. */
  const NewConversationTitle: string := "New Conversation"

  /** Title subject used when a first message has attachments but no text. */
  const FileAnalysisSubject: string := "File Analysis"

  /** Content written into the placeholder when a send fails. */
  const SendErrorText: string := "Error processing request."

  /** Content written into the slot when a regeneration fails. */
  const RegenerateErrorText: string := "Error during regeneration."

  /** Message of the error thrown when no API key is configured. */
  const MissingApiKeyMessage: string :=
    "API Key is not configured. Please check your environment variables."
}
