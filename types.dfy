/**
 * The records the session and the profile page work with, as declared in
 * `src/types/index.ts`, cut down to the fields some modelled operation reads
 * plus a few identifying ones.
 * Numbers are JSON numbers in the TypeScript code; they are integers here.
 */
module Types {
  import opened Options

  /**
   * One entry of `contract_details`, a union tagged by `type`:
   * `'fulltime'` or `'client_staffing'`. `extensionNumber` is read by the
   * profile page although the declared client-staffing record has no such
   * field; it is optional here, as an undeclared property reads as `undefined`.
   */
  datatype Contract =
    | Fulltime(id: int, dateStart: string, dateEnd: Option<string>)
    | ClientStaffing(id: int, dateStart: string, dateEnd: Option<string>,
                     duration: Option<string>, deputationLocation: Option<string>,
                     deputationClient: Option<string>, extensionNumber: Option<string>)

  /** The profile returned by `/api/v1/user/me` (`StrapiUserFullType`), as far as it is used. */
  datatype User = User(id: int, username: string, email: string, fullname: string,
                       contractDetails: Option<seq<Contract>>)

  /** The credentials `login` posts. */
  datatype LoginRequest = LoginRequest(identifier: string, password: string)

  /** One file of the payslip listing. */
  datatype Payslip = Payslip(filename: string, filePath: string, employeeId: string,
                             year: int, monthId: int, monthName: string,
                             fileSize: int, createdAt: int, modifiedAt: int)

  /** The body of a payslip download request. */
  datatype PayslipDownloadRequest = PayslipDownloadRequest(filename: string, year: int, monthId: int,
                                                           monthName: string, employeeId: string)
}
