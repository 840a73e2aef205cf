/** Shared small definitions. */
module Wrappers {
  datatype Option<+T> = None | Some(value: T)
  datatype Result<+T> = Success(value: T) | Failure(error: string)
}

/** The role names of the API (api/v1alpha1/airflowcluster_types.go). */
module RoleNames {
  const SCHEDULERS := "schedulers"
  const WEBSERVERS := "webservers"
  const CELERY_EXECUTORS := "celeryexecutors"
}

/** The environment variables of a container. */
module EnvVars {

  /** Where a value comes from; joined paths are left as what they are made from. */
  datatype Source =
    | Plain(text: string)
    | DagFolder(gitFolder: string)                // the folder for DAGs, and in it gitFolder unless that is empty
    | PythonPath(gitFolder: string)               // the application's configuration, then that folder
    | FromSecret(secret: string, key: string)

  datatype EnvVar = EnvVar(name: string, source: Source)
}
