/** Connection references handed to a module at init (appfwk::app::ConnectionReference). */
module Connections {

  /** iomanager::connection::Direction */
  datatype Direction = Unknown | Input | Output

  datatype Connection = Connection(name: string, uid: string, dir: Direction)
}
