/** What an action asks a provider to do. */
module Payloads {
  import opened Wrappers

  datatype BlockEvent = BlockEvent(taskId: string, details: string)

  datatype Content =
    | StudyPage(text: string)
    | StudyPlan(blocks: seq<BlockEvent>)
    | OtherContent(text: string)

  /** The five fields that say where a page goes. */
  datatype Destination = Destination(
    connectionId: Option<string>,
    parentId: Option<string>,
    parentTitle: Option<string>,
    workspaceId: Option<string>,
    workspaceName: Option<string>)

  datatype Payload = Payload(content: Content, destination: Destination)

  datatype Operation =
    | CreateNotionStudyPage | CreateCalendarStudyPlan | CreateNotionTask | PublishNotionProject
    | CreateGithubIssue | RequestPullRequestReview | CreateRelayTask | UnknownOperation(name: string)

  /** A field of the proposal wins over the approved one when it is present and not empty. */
  function Preferred(approved: Option<string>, proposed: Option<string>): Option<string> {
    if proposed.Some? && proposed.value != [] then proposed else approved
  }

  function OverlayDestination(approved: Destination, proposed: Destination): Destination {
    Destination(
      Preferred(approved.connectionId, proposed.connectionId),
      Preferred(approved.parentId, proposed.parentId),
      Preferred(approved.parentTitle, proposed.parentTitle),
      Preferred(approved.workspaceId, proposed.workspaceId),
      Preferred(approved.workspaceName, proposed.workspaceName))
  }

  /** What is submitted: the approved payload, sent to the destination chosen since. */
  function Overlay(approved: Payload, proposed: Payload): Payload {
    Payload(approved.content, OverlayDestination(approved.destination, proposed.destination))
  }
}
