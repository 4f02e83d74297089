/** The surveys client: a location's surveys and their submissions. */
module SurveysApi {
  import opened Wrappers
  import opened Json
  import opened Http
  import opened Marshal

  /** The submissions query: the page query, plus `surveyId` only when it is truthy. */
  ghost predicate IsSubmissionsQuery(params: map<string, Json>, surveyId: Option<string>, limit: int, skip: int) {
    && params.Keys <= {"limit", "skip", "surveyId"}
    && "limit" in params && params["limit"] == JInt(limit)
    && ("skip" in params <==> skip > 0)
    && ("surveyId" in params <==> Truthy(Str(surveyId)))
    && ("skip" in params ==> params["skip"] == JInt(skip))
    && ("surveyId" in params ==> params["surveyId"] == Str(surveyId))
  }

  /** Builds the submissions query by conditional insertions. */
  method SubmissionsQuery(surveyId: Option<string>, limit: int, skip: int) returns (params: map<string, Json>)
    ensures IsSubmissionsQuery(params, surveyId, limit, skip)
  {
    params := map["limit" := JInt(limit)];
    if skip > 0 {
      params := params["skip" := JInt(skip)];
    }
    if surveyId.Some? && surveyId.value != "" {
      params := params["surveyId" := JStr(surveyId.value)];
    }
  }

  /** With no survey given and no skip, the submissions query is exactly `{"limit": limit}`. */
  lemma UnfilteredSubmissionsQuery(params: map<string, Json>, limit: int)
    requires IsSubmissionsQuery(params, None, limit, 0)
    ensures params == map["limit" := JInt(limit)]
  {
  }

  /** `get_surveys`: scoped GET /surveys/ with the page query, read under "surveys". */
  method GetSurveys(send: Transport, locationId: string, limit: int, skip: int) returns (c: Call<Page>)
    ensures |c.trace| == 1
    ensures c.trace[0].verb == GET && c.trace[0].path == "/surveys/"
    ensures c.trace[0].body == None && c.trace[0].scope == Some(locationId)
    ensures IsPageQuery(c.trace[0].query, limit, skip)
    ensures skip == 0 ==> c.trace[0].query == map["limit" := JInt(limit)]
    ensures c.result == PageReply(send(c.trace[0]), "surveys")
  {
    var params := PageQuery(limit, skip);
    if skip == 0 {
      PageQueryWithoutSkip(params, limit);
    }
    var req := Request(GET, "/surveys/", params, None, Some(locationId));
    c := Call([req], PageReply(send(req), "surveys"));
  }

  /** `get_survey`: GET /surveys/{id}, the survey under "survey" or the whole body. */
  function GetSurvey(send: Transport, surveyId: string, locationId: string): (c: Call<Model>)
    ensures c.trace == [Request(GET, "/surveys/" + surveyId, map[], None, Some(locationId))]
    ensures c.result == UnwrapReply(send(c.trace[0]), "survey")
  {
    var req := Request(GET, "/surveys/" + surveyId, map[], None, Some(locationId));
    Call([req], UnwrapReply(send(req), "survey"))
  }

  /** `get_survey_submissions`: scoped GET /surveys/submissions, read under "submissions". */
  method GetSurveySubmissions(send: Transport, locationId: string, surveyId: Option<string>, limit: int, skip: int)
    returns (c: Call<Page>)
    ensures |c.trace| == 1
    ensures c.trace[0].verb == GET && c.trace[0].path == "/surveys/submissions"
    ensures c.trace[0].body == None && c.trace[0].scope == Some(locationId)
    ensures IsSubmissionsQuery(c.trace[0].query, surveyId, limit, skip)
    ensures c.result == PageReply(send(c.trace[0]), "submissions")
  {
    var params := SubmissionsQuery(surveyId, limit, skip);
    var req := Request(GET, "/surveys/submissions", params, None, Some(locationId));
    c := Call([req], PageReply(send(req), "submissions"));
  }
}
