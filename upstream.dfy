/**
 * The answers of the upstream services as the routes receive them: GitHub's
 * GraphQL and REST payloads and WakaTime's statistics. A payload that can be
 * either an error object or data is decoded error-first, as the untagged
 * decoding does.
 */
module Upstream {
  import opened Wrappers

  /** The outcome of a request: the transport or decoding failed, or a body arrived. */
  datatype Fetched<T> = TransportFailure | Received(body: T)

  /** A GitHub answer: an error object carrying a message, or the data asked for. */
  datatype GithubResponse<T> = Failed(message: string) | Valid(data: T)

  datatype ContributionDay = ContributionDay(weekday: int, date: string, contributionCount: int, color: string)

  datatype ContributionWeek = ContributionWeek(contributionDays: seq<ContributionDay>)

  datatype ContributionMonth = ContributionMonth(name: string, year: int, firstDay: string, totalWeeks: int)

  datatype Calendar = Calendar(totalContributions: int, weeks: seq<ContributionWeek>, months: seq<ContributionMonth>)

  datatype GithubUser = GithubUser(createdAt: string, calendar: Calendar)

  /** The contribution calendar query; the user is absent when GitHub knows no such login. */
  type ActivityResponse = GithubResponse<Option<GithubUser>>

  /** One language of one repository, with the bytes written in it. */
  datatype LanguageEdge = LanguageEdge(name: string, size: int)

  datatype RepositoryNode = RepositoryNode(edges: seq<LanguageEdge>)

  /** The languages query: the user's repositories, or no user. */
  type LanguagesResponse = GithubResponse<Option<seq<RepositoryNode>>>

  /** The fields of a repository a pin shows. */
  datatype Repository = Repository(description: Option<string>, stargazersCount: int, forksCount: int, language: Option<string>)

  type RepositoryResponse = GithubResponse<Repository>

  datatype GistFile = GistFile(name: string, size: int, languageName: string)

  /** The fields of a gist a pin shows. */
  datatype Gist = Gist(ownerLogin: string, files: seq<GistFile>, description: Option<string>, stargazerCount: int, forksTotalCount: int)

  /** The gist query; the gist is absent when the viewer has none with that id. */
  type GistResponse = GithubResponse<Option<Gist>>

  /** One language of a WakaTime summary with its share of coding time. */
  datatype WakaEntry = WakaEntry(name: string, percent: real)

  /** WakaTime's answer: an error, the statistics, or a summary not yet computed. */
  datatype WakaStatsResponse = WakaFailed(error: string) | WakaValid(languages: seq<WakaEntry>) | WakaNoData
}
