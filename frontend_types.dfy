/** The records of src/lib/types.ts that the front-end components read. */
module FrontendTypes {
  import opened Wrappers

  /** The signed-in account (`User`). */
  datatype AppUser = AppUser(id: string, email: string, businessName: string, createdAt: string)

  /** The business described during onboarding (`BusinessConfig`). */
  datatype BusinessConfig = BusinessConfig(businessName: string, description: string, products: string, tone: string,
                                           hours: string, location: string, policies: string, faqs: string)

  /** `aiProvider` of `APICredentials`; an unselected provider is the empty string. */
  datatype AIProviderSettings = AIProviderSettings(provider: string, apiKey: string, model: string)

  /**
   * `APICredentials`. Only the AI provider is read by any rule; the Meta, Twilio,
   * ElevenLabs and Genkit credentials are carried as the texts entered.
   */
  datatype APICredentials = APICredentials(aiProvider: Option<AIProviderSettings>, otherServices: seq<string>)

  const EmptyConfig: BusinessConfig := BusinessConfig("", "", "", "", "", "", "", "")

  const NoCredentials: APICredentials := APICredentials(None, [])
}
