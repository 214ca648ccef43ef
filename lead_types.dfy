/** The records of src/types/leads.ts shared by the lead-generation screens. */
module LeadTypes {
  import opened Wrappers

  datatype Lead = Lead(
    id: string,
    name: string,
    email: string,
    phone: string,
    city: string,
    country: string,
    source: string,
    createdAt: string)

  datatype AgeRange = AgeRange(min: int, max: int)

  datatype LeadFilters = LeadFilters(
    niche: string,
    city: string,
    country: string,
    quantity: nat,
    ageRange: Option<AgeRange>,
    fields: Option<seq<string>>)

  datatype Status = Idle | Generating | Completed | Error

  datatype LeadGenerationProgress = LeadGenerationProgress(
    total: nat,
    generated: nat,
    currentBatch: nat,
    estimatedTimeRemaining: nat,
    status: Status,
    leads: seq<Lead>)

  datatype SearchStatus = SearchCompleted | SearchFailed

  datatype SearchHistory = SearchHistory(
    id: string,
    filters: LeadFilters,
    totalLeads: nat,
    createdAt: string,
    status: SearchStatus,
    downloadUrl: Option<string>)
}
