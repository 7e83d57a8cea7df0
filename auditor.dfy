/** The records the auditing service produces. */
module Auditor {

  /** One vulnerability finding.  The severity is free text: the service's
      schema describes the expected levels but does not enforce them. */
  datatype Finding = Finding(title: string, description: string, severity: string, filePath: string)

  /** The structured answer of one audit request. */
  datatype AuditResponse = AuditResponse(findings: seq<Finding>)
}
