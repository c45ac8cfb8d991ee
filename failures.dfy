/**
 * The issues the modules throw. All but FailedReadoutInitialization are
 * declared by readoutlibs (readoutlibs/ReadoutIssues.hpp is not part of this
 * model); the names and carried fields follow the throw sites.
 */
module Failures {

  datatype Failure =
    | GenericConfigurationError(reason: string)
    | FailedFakeCardInitialization(moduleName: string)
    | ResourceQueueError(queueName: string, moduleName: string, cause: Failure)
    | DataRecorderConfigurationError(reason: string)
    | DataRecorderResourceQueueError(reason: string, queueType: string)
    | GenericResourceQueueError(queueType: string, moduleName: string, cause: Failure)
    | FailedReadoutInitialization(name: string, initParams: string)
    | FrameworkIssue(what: string)  // raised by a framework collaborator
}
