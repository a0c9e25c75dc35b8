/** The fixed texts that the status closures write. */
module Messages {
  const MSG_DEPLOYMENT_HAS_NOT_BEEN_OBSERVED_YET := " Deployment has not been observed yet"
  const MSG_DEPLOYMENT_IS_AVAILABLE := " Deployment is Available"
  const MSG_DEPLOYMENT_IS_NOT_YET_AVAILABLE := " Deployment is not yet Available"
  const MSG_STORAGE_CONTROLLER := "Storage controller"
  const MSG_STORAGE_BROKER := "Storage broker"
  const MSG_RETRYING_AFTER_RESOURCE_CREATION_FAILURE := "Retrying after resource creation failure"
  const MSG_CLUSTER_COMPONENTS_ARE_AVAILABLE := "Cluster components are Available"
  const MSG_ONE_OR_MORE_CLUSTER_COMPONENTS_ARE_NOT_AVAILABLE := "One or more cluster components are not Available"
  const MSG_CLUSTER_IS_AT_DESIRED_STATE := "Cluster is at desired state"
  const MSG_WAITING_FOR_CHILD_DEPLOYMENTS_TO_BECOME_AVAILABLE := "Waiting for child Deployments to become Available"
  const MSG_TENANT_ID_IS_ASSIGNED := "Tenant ID is assigned"
  const MSG_TENANT_ID_HAS_NOT_BEEN_GENERATED_YET := "Tenant ID has not been generated yet"
  const MSG_TENANT_ID_ASSIGNMENT_FAILED := "Tenant ID assignment failed"
  const MSG_TENANT_ID_HAS_NOT_BEEN_ASSIGNED := "Tenant ID has not been assigned"
  const MSG_TENANT_ATTACHED_ON_STORAGE_CONTROLLER := "Tenant attached on storage controller"
  const MSG_PROJECT_IS_AVAILABLE := "Project is Available"
  const MSG_PROJECT_IS_NOT_YET_AVAILABLE := "Project is not yet Available"
  const MSG_PROJECT_IS_AT_DESIRED_STATE := "Project is at desired state"
  const MSG_WORKING_TOWARD_DESIRED_STATE := "Working toward desired state"
  const MSG_TIMELINE_ID_IS_ASSIGNED := "Timeline ID is assigned"
  const MSG_TIMELINE_ID_HAS_NOT_BEEN_GENERATED_YET := "Timeline ID has not been generated yet"
  const MSG_TIMELINE_CREATED_ON_STORAGE_CONTROLLER := "Timeline created on storage controller"
  const MSG_COMPUTE_DEPLOYMENT_HAS_NOT_BEEN_OBSERVED_YET := "Compute Deployment has not been observed yet"
  const MSG_COMPUTE_DEPLOYMENT_IS_AVAILABLE := "Compute Deployment is Available"
  const MSG_COMPUTE_DEPLOYMENT_IS_NOT_AVAILABLE_YET := "Compute Deployment is not Available yet"
  const MSG_BRANCH_IS_AVAILABLE := "Branch is Available"
  const MSG_BRANCH_IS_AT_DESIRED_STATE := "Branch is at desired state"
  const MSG_STATEFULSET_IS_NOT_READY := " StatefulSet is not Ready"
  const MSG_STATEFULSET_HAS_NOT_BEEN_OBSERVED_YET := " StatefulSet has not been observed yet"
  const MSG_STATEFULSET_IS_READY := " StatefulSet is Ready"
  const MSG_WAITING_FOR_CHILD_STATEFULSET_TO_APPEAR := "Waiting for child StatefulSet to appear"
  const MSG_COULD_NOT_READ_CHILD_STATEFULSET := "Could not read child StatefulSet"
  const MSG_IS_AT_DESIRED_STATE := " is at desired state"
  const MSG_WAITING_FOR := "Waiting for "
  const MSG_STATEFULSET_READINESS := " StatefulSet readiness"
  const MSG_CHILD_RESOURCES_RECONCILED := "Child resources reconciled"
}
